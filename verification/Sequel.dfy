/** What follows each event of a run, and what the two engines are asked to do, without the positions of the runner. */
module Sequel {
  import opened Basics
  import opened Reconcile
  import opened State
  import opened Events
  import opened LaunchSpec
  import opened WatchSpec
  import opened RunnerSpec
  import opened Watch

  // --- what a run remembers ----------------------------------------------------------------------------------------

  /** The listing of the run that goes on. */
  function LastListing(es: seq<Event>): (e: Option<Event>)
    ensures e.Some? ==> e.value.Discovered?
  {
    if es == [] then None else if es[|es| - 1].Discovered? then Some(es[|es| - 1]) else LastListing(es[..|es| - 1])
  }

  predicate Listed(es: seq<Event>, setup: Setup) {
    LastListing(es).Some? && LastListing(es).value.setup == setup
  }

  /** What a save of the watcher will lead to is told by the status it stores. */
  predicate StatusTells(watch: WatchInput, w: WatchPc) {
    match w
    case Storing(st, Rest(_)) =>
      !watch.once && st.status != Available && st.status != ProbeUnavailable && st.status != ProbeKind.Fatal
    case Storing(st, Return(result)) =>
      if st.status == Available || st.status == ProbeUnavailable then result == Placement(st.status, st.lastAD)
      else if st.status == ProbeKind.Fatal then result == WatchError(ProbeKind.Fatal)
      else watch.once && result == Placement(Unavailable, "")
    case Drawing(st, _) => !watch.once && st.status in {Unavailable, Throttled, ProbeKind.Transient}
    case Stamping(st, _) => !watch.once && st.status in {Unavailable, Throttled, ProbeKind.Transient}
    case _ => true
  }

  /** A stored failure is never a lost capacity race. */
  predicate NotLost(l: LaunchPc) {
    l.Failing? ==> l.kind != Some(OutOfCapacity)
  }

  predicate Knows(es: seq<Event>, pc: Pc) {
    match pc
    case Observed(setup, seen) => LastListing(es) == Some(Event.Discovered(setup, seen))
    case Holding(setup, seen) => LastListing(es) == Some(Event.Discovered(setup, seen))
    case Chosen(setup, d) => Listed(es, setup) && (CreateSafe(d.kind) ==> d.instanceID == "")
    case Watching(setup, d, watch, w) =>
      && Listed(es, setup) && CreateSafe(d.kind) && d.instanceID == "" && watch.once == setup.once
      && StatusTells(watch, w)
    case Launching(setup, d, launch, l) =>
      && Listed(es, setup) && launch == LaunchPlan(setup, d) && NotLost(l)
      && if CreateSafe(d.kind) then d.instanceID == "" else d.instanceID != "" && !BeforeInstance(l)
    case Idle => true
    case _ => LastListing(es).Some?
  }

  lemma StatusStep(watch: WatchInput, w: WatchPc, e: Event)
    requires StatusTells(watch, w) && WatchNext(watch, w, e).Some?
    ensures StatusTells(watch, WatchNext(watch, w, e).value)
  {
    hide DelayFor, StartDomain;
  }

  lemma StatusStart(setup: Setup, r: Record)
    ensures StatusTells(WatchPlan(setup, r), WatchStart(WatchPlan(setup, r)))
  {
    hide ResumeFrom;
  }

  lemma LaunchStepKnows(launch: LaunchInput, l: LaunchPc, e: Event)
    requires LaunchNext(launch, l, e).Some?
    ensures !BeforeInstance(l) ==> !BeforeInstance(LaunchNext(launch, l, e).value)
    ensures NotLost(LaunchNext(launch, l, e).value)
  {
    hide Capped;
  }

  lemma KnowsStep(es: seq<Event>, pc: Pc)
    requires es != [] && Knows(es[..|es| - 1], pc) && Next(pc, es[|es| - 1]).Some?
    ensures Knows(es, Next(pc, es[|es| - 1]).value)
  {
    hide Knows, Next;
    match pc
    case Watching(_, _, _, _) => KnowsWatching(es, pc);
    case Launching(_, _, _, _) => KnowsLaunching(es, pc);
    case Chosen(_, _) => KnowsChosen(es, pc);
    case _ => KnowsDeciding(es, pc);
  }

  lemma KnowsWatching(es: seq<Event>, pc: Pc)
    requires es != [] && Knows(es[..|es| - 1], pc) && Next(pc, es[|es| - 1]).Some? && pc.Watching?
    ensures Knows(es, Next(pc, es[|es| - 1]).value)
  {
    var e := es[|es| - 1];
    if !pc.w.Watched? && WatchNext(pc.watch, pc.w, e).Some? {
      StatusStep(pc.watch, pc.w, e);
    }
    hide WatchNext, LaunchNext, StatusTells, Feasible, InLaunch, OnSettled, OnRotated;
  }

  lemma KnowsLaunching(es: seq<Event>, pc: Pc)
    requires es != [] && Knows(es[..|es| - 1], pc) && Next(pc, es[|es| - 1]).Some? && pc.Launching?
    ensures Knows(es, Next(pc, es[|es| - 1]).value)
  {
    var e := es[|es| - 1];
    if !pc.l.Done? && LaunchNext(pc.launch, pc.l, e).Some? {
      LaunchStepKnows(pc.launch, pc.l, e);
    }
    hide WatchNext, LaunchNext, StatusTells, Feasible, InWatch, OnSettled, NewAttempt, LaunchPlan, BeforeInstance;
  }

  lemma KnowsChosen(es: seq<Event>, pc: Pc)
    requires es != [] && Knows(es[..|es| - 1], pc) && Next(pc, es[|es| - 1]).Some? && pc.Chosen?
    ensures Knows(es, Next(pc, es[|es| - 1]).value)
  {
    var e := es[|es| - 1];
    if e.Resumed? {
      StatusStart(pc.setup, e.record);
    }
    hide WatchStart, StatusTells, LaunchPlan, ResumeFrom;
  }

  lemma CreateSafeIsNameless(input: Input)
    ensures CreateSafe(Verdict(input).kind) ==> Verdict(input).instanceID == ""
  {
    hide Counted, Complete;
  }

  lemma KnowsDeciding(es: seq<Event>, pc: Pc)
    requires es != [] && Knows(es[..|es| - 1], pc) && Next(pc, es[|es| - 1]).Some?
    requires !pc.Chosen? && !pc.Watching? && !pc.Launching?
    ensures Knows(es, Next(pc, es[|es| - 1]).value)
  {
    var e := es[|es| - 1];
    if pc.Holding? && e.Saved? {
      CreateSafeIsNameless(InputOn(pc.setup.key, pc.seen, e.before, e.now));
    }
    hide WatchStart, StatusTells, LaunchPlan, Feasible, Verdict, NewAttempt, InWatch, InLaunch, OnRotated, Complete;
  }

  lemma {:induction false} Knowing(es: seq<Event>)
    requires RunAfter(es).Some?
    ensures Knows(es, RunAfter(es).value)
  {
    if es != [] {
      Knowing(es[..|es| - 1]);
      hide Next, Knows;
      KnowsStep(es, RunAfter(es[..|es| - 1]).value);
    }
  }

  // --- what follows ------------------------------------------------------------------------------------------------

  /** The run ends with an error. */
  predicate GivesUp(e: Event) {
    e == Exited(false, "")
  }

  /** What a run does after it stored its decision, which the listing `seen` and the record `before` led to. */
  ghost predicate AfterSettled(key: Key, seen: seq<Instance>, before: Option<Record>, now: Time, out: Outcome,
                               next: Event)
  {
    var input := InputOn(key, seen, before, now);
    if !out.ok || !Ours(input) then GivesUp(next)
    else
      && (Nothing(input) ==> GivesUp(next) || next.Resumed?)
      && (forall x | Only(input, x) :: next == if x.id == "" then Exited(true, "") else Placed(x.id))
      && (!Nothing(input) && !(exists x :: Only(input, x)) ==> GivesUp(next))
  }

  /** What a run does after a save of the watcher: it launches, rests, ends, or gives up. */
  predicate AfterProgress(once: bool, status: ProbeKind, ok: bool, next: Event) {
    if !ok || status == ProbeKind.Fatal then GivesUp(next)
    else if status == Available || status == ProbeUnavailable then next == Placed("")
    else if once then next == Exited(true, "")
    else next.Slept?
  }

  /** `next` may follow `e` in a run with this setup and this listing. */
  ghost predicate MayFollow(setup: Setup, seen: seq<Instance>, e: Event, next: Event) {
    match e
    case Discovered(_, _) => next.Guarded? || GivesUp(next)
    case Guarded(ok) =>
      GivesUp(next) || (ok && next.Saved? && next.write.Settled? && next.write.seen == seen)
    case Saved(Settled(_, _), before, now, out) => AfterSettled(setup.key, seen, before, now, out, next)
    case Saved(Rotated(_), _, _, out) => GivesUp(next) || (out.ok && next.Resumed?)
    case Saved(Progressed(p), _, _, out) => AfterProgress(setup.once, p.status, out.ok, next)
    case Saved(LaunchAccepted(_), _, _, out) => if out.ok then next.Fetched? || next.Launched? else GivesUp(next)
    case Saved(LaunchFinished(vm), _, _, out) =>
      if out.ok then next.Exited? && next.ok && (vm.id != "" ==> next.instanceID == vm.id) else GivesUp(next)
    case Saved(LaunchFailed(_), _, _, _) => GivesUp(next)
    case Slept(_, ok, _) => ok || GivesUp(next)
    case Probed(_, _, cancelled, _) => !cancelled || GivesUp(next)
    case Looked(_, _, cancelled) => !cancelled || GivesUp(next)
    case Fetched(_, _, cancelled) => !cancelled || GivesUp(next)
    case Launched(_, answer, cancelled) =>
      if cancelled then GivesUp(next)
      else if answer.kind == OutOfCapacity then
        if setup.once then next == Exited(true, "") else GivesUp(next) || (next.Saved? && next.write.Rotated?)
      else true
    case Placed(id) =>
      if setup.timeout <= 0 || setup.retryMin <= 0 || setup.retryMax < setup.retryMin then GivesUp(next)
      else if id == "" then next.Launched? && next.request.key == setup.key
      else next.Fetched? && next.id == id
    case _ => true
  }

  lemma {:induction false} RunPrefix(es: seq<Event>, k: nat)
    requires RunAfter(es).Some? && k <= |es|
    ensures RunAfter(es[..k]).Some?
    ensures k < |es| ==> Next(RunAfter(es[..k]).value, es[k]) == RunAfter(es[..k + 1])
  {
    if k == |es| {
      assert es[..k] == es;
    } else {
      var before := es[..|es| - 1];
      if k < |before| {
        RunPrefix(before, k);
        assert before[..k] == es[..k] && before[..k + 1] == es[..k + 1];
      } else {
        assert es[..k] == before && es[..k + 1] == es;
      }
    }
    hide Next;
  }

  /** One event of a run leads from `pc` to where the next one is possible. */
  ghost predicate Twice(es: seq<Event>, pc: Pc, e: Event, next: Event) {
    && es != [] && es[|es| - 1] == e && Knows(es[..|es| - 1], pc)
    && Next(pc, e).Some? && Next(Next(pc, e).value, next).Some?
  }

  /** The last of `es`, `e`, may be followed by `next`. */
  ghost predicate FollowsOn(es: seq<Event>, e: Event, next: Event) {
    var listing := LastListing(es);
    !e.Exited? ==> listing.Some? && MayFollow(listing.value.setup, listing.value.seen, e, next)
  }

  lemma FollowsBefore(es: seq<Event>, pc: Pc, e: Event, next: Event)
    requires Twice(es, pc, e, next) && (pc.Idle? || pc.Observed? || pc.Barred? || pc.Leaving?)
    ensures FollowsOn(es, e, next)
  {
    hide WatchNext, LaunchNext, InWatch, InLaunch, AfterSettled;
  }

  lemma FollowsHolding(es: seq<Event>, pc: Pc, e: Event, next: Event)
    requires Twice(es, pc, e, next) && pc.Holding?
    ensures FollowsOn(es, e, next)
  {
    hide InWatch, InLaunch, OnSettled, AfterSettled, OnRotated;
    if e.Saved? {
      SettledFollows(pc.setup, pc.seen, e, next);
    }
  }

  lemma ThreeOutcomes(input: Input)
    ensures var d := Verdict(input);
      && (Ours(input) && Nothing(input) ==> CreateSafe(d.kind) || d.kind == Conflict)
      && (forall x | Ours(input) && Only(input, x) ::
            !CreateSafe(d.kind) && d.kind != Conflict && d.instanceID == x.id)
      && (!Ours(input) || (!Nothing(input) && forall x :: !Only(input, x)) ==> d.kind == Conflict)
  {
    DecisionExactly(input);
    hide Verdict, Nothing, Only, Ours, Complete, Differs;
  }

  lemma SettledFollows(setup: Setup, seen: seq<Instance>, e: Event, next: Event)
    requires e.Saved? && OnSettled(setup, seen, e).Some? && Next(OnSettled(setup, seen, e).value, next).Some?
    ensures e.write.Settled? && e.write.seen == seen
    ensures AfterSettled(setup.key, seen, e.before, e.now, e.out, next)
  {
    hide Feasible, Verdict, Only, Nothing, Ours, InputOn, NewAttempt, EnterWatch, EnterLaunch;
    ThreeOutcomes(InputOn(setup.key, seen, e.before, e.now));
  }

  lemma FollowsChosen(es: seq<Event>, pc: Pc, e: Event, next: Event)
    requires Twice(es, pc, e, next) && pc.Chosen?
    ensures FollowsOn(es, e, next)
  {
    hide WatchNext, InWatch, AfterSettled;
  }

  lemma FollowsWatching(es: seq<Event>, pc: Pc, e: Event, next: Event)
    requires Twice(es, pc, e, next) && pc.Watching?
    ensures FollowsOn(es, e, next)
  {
    hide AfterSettled, DelayFor, OnProbe, Feasible, OnSettled, OnRotated, StartDomain;
  }

  lemma FollowsLaunching(es: seq<Event>, pc: Pc, e: Event, next: Event)
    requires Twice(es, pc, e, next) && pc.Launching?
    ensures FollowsOn(es, e, next)
  {
    if pc.l.Done? || e.Exited? {
      hide AfterSettled, WatchNext, InWatch, LaunchNext, Feasible, NewAttempt, WatchPlan, WatchStart;
    } else {
      LaunchFollows(es, pc, e, next);
    }
  }

  lemma LaunchFollows(es: seq<Event>, pc: Pc, e: Event, next: Event)
    requires Twice(es, pc, e, next) && pc.Launching? && !pc.l.Done? && !e.Exited?
    ensures FollowsOn(es, e, next)
  {
    hide AfterSettled, WatchNext, InWatch, OnGet, OnLook, OnLookup, Capped, Feasible, LaunchPlan, OnSettled;
  }

  lemma TwiceHolds(es: seq<Event>, i: nat)
    requires RunAfter(es).Some? && i + 1 < |es|
    ensures RunAfter(es[..i]).Some? && Twice(es[..i + 1], RunAfter(es[..i]).value, es[i], es[i + 1])
  {
    hide RunAfter, Next, Knows;
    RunPrefix(es, i);
    RunPrefix(es, i + 1);
    RunPrefix(es, i + 2);
    Knowing(es[..i]);
    assert es[..i + 1][..i] == es[..i] && es[..i + 1][i] == es[i];
  }

  /** What each event of a run is followed by. */
  lemma WhatFollows(es: seq<Event>, i: nat)
    requires RunAfter(es).Some? && i + 1 < |es|
    ensures FollowsOn(es[..i + 1], es[i], es[i + 1])
  {
    hide Twice, RunAfter, LastListing, MayFollow;
    TwiceHolds(es, i);
    var pc := RunAfter(es[..i]).value;
    match pc
    case Holding(_, _) => FollowsHolding(es[..i + 1], pc, es[i], es[i + 1]);
    case Chosen(_, _) => FollowsChosen(es[..i + 1], pc, es[i], es[i + 1]);
    case Watching(_, _, _, _) => FollowsWatching(es[..i + 1], pc, es[i], es[i + 1]);
    case Launching(_, _, _, _) => FollowsLaunching(es[..i + 1], pc, es[i], es[i + 1]);
    case _ => FollowsBefore(es[..i + 1], pc, es[i], es[i + 1]);
  }

  // --- the engines inside a run ------------------------------------------------------------------------------------

  /** An event enters the launch engine, or is a step of it. */
  lemma LaunchEntry(before: Pc, e: Event, pc: Pc)
    requires Next(before, e) == Some(pc) && pc.Launching?
    ensures
      || (e == Placed(pc.d.instanceID) && pc == EnterLaunch(pc.setup, pc.d))
      || (before.Launching? && pc == before.(l := pc.l) && LaunchNext(pc.launch, before.l, e) == Some(pc.l))
  {
    hide LaunchNext, WatchNext, LaunchPlan, WatchPlan, VerdictOn, Feasible, NewAttempt, LaunchStart;
  }

  /** The launch engine has the configuration of the run. */
  predicate LaunchesFor(setup: Setup, launch: LaunchInput) {
    && launch.request.key == setup.key && launch.publicIP == setup.publicIP && launch.timeout == setup.timeout
    && launch.retryMin == setup.retryMin && launch.retryMax == setup.retryMax
  }

  lemma LaunchTail(plan: LaunchInput, es: seq<Event>, k: nat, l: LaunchPc)
    requires k + 1 < |es| && LaunchAfter(plan, es[..|es| - 1][k + 1..]) == Some(l)
    ensures LaunchAfter(plan, es[k + 1..]) == LaunchNext(plan, l, es[|es| - 1])
  {
    var tail := es[k + 1..];
    assert tail[..|tail| - 1] == es[..|es| - 1][k + 1..];
    hide LaunchNext;
  }

  lemma EnterLaunchHere(setup: Setup, d: Decision)
    ensures var pc := EnterLaunch(setup, d);
      pc.launch.existing == d.instanceID && LaunchesFor(setup, pc.launch) && LaunchAfter(pc.launch, []) == Some(pc.l)
  {
  }

  /** What a run launches with: its own configuration, and the instance it was placed for. */
  lemma {:induction false} LaunchPart(es: seq<Event>) returns (k: nat)
    requires RunAfter(es).Some? && RunAfter(es).value.Launching?
    ensures k < |es| && es[k] == Placed(RunAfter(es).value.launch.existing)
    ensures LaunchesFor(RunAfter(es).value.setup, RunAfter(es).value.launch)
    ensures LaunchAfter(RunAfter(es).value.launch, es[k + 1..]) == Some(RunAfter(es).value.l)
  {
    var pc, before, e := RunAfter(es).value, es[..|es| - 1], es[|es| - 1];
    LaunchEntry(RunAfter(before).value, e, pc);
    hide RunAfter, Next, LaunchNext, LaunchesFor, EnterLaunch, LaunchAfter;
    if e == Placed(pc.d.instanceID) && pc == EnterLaunch(pc.setup, pc.d) {
      k := |es| - 1;
      assert es[k + 1..] == [];
      EnterLaunchHere(pc.setup, pc.d);
    } else {
      k := LaunchPart(before);
      LaunchTail(pc.launch, es, k, RunAfter(before).value.l);
    }
  }

  lemma WatchEntry(before: Pc, e: Event, pc: Pc)
    requires Next(before, e) == Some(pc) && pc.Watching?
    ensures
      || (e.Resumed? && pc == EnterWatch(pc.setup, pc.d, e.record))
      || (before.Watching? && pc == before.(w := pc.w) && WatchNext(pc.watch, before.w, e) == Some(pc.w))
  {
    hide LaunchNext, WatchNext, LaunchPlan, WatchPlan, VerdictOn, Feasible, NewAttempt, WatchStart;
  }

  /** The watcher has the configuration of the run, and resumes from the record `r`. */
  predicate WatchesFor(setup: Setup, r: Record, watch: WatchInput) {
    && watch.domains == setup.domains && watch.once == setup.once && watch.complete == setup.complete
    && watch.timeout == setup.timeout && watch.initial == setup.retryMin && watch.maximum == setup.retryMax
    && watch.jitter == 0.2
    && watch.resume.lastAD == r.selectedAD && watch.resume.retryCount == r.retryCount
    && watch.resume.nextAttempt == r.nextAttempt && KindText(watch.resume.status) == r.lastResult
  }

  lemma WatchTail(plan: WatchInput, es: seq<Event>, k: nat, w: WatchPc)
    requires k + 1 < |es| && WatchAfter(plan, es[..|es| - 1][k + 1..]) == Some(w)
    ensures WatchAfter(plan, es[k + 1..]) == WatchNext(plan, w, es[|es| - 1])
  {
    var tail := es[k + 1..];
    assert tail[..|tail| - 1] == es[..|es| - 1][k + 1..];
    hide WatchNext;
  }

  lemma EnterWatchHere(setup: Setup, d: Decision, r: Record)
    ensures var pc := EnterWatch(setup, d, r);
      WatchesFor(setup, r, pc.watch) && WatchAfter(pc.watch, []) == Some(pc.w)
  {
    StatusIsReadBack(Available, r.lastResult);
    hide Cursor;
  }

  /** What a run watches with: its own configuration, and the progress in the record it loaded. */
  lemma {:induction false} WatchPart(es: seq<Event>) returns (k: nat)
    requires RunAfter(es).Some? && RunAfter(es).value.Watching?
    ensures k < |es| && es[k].Resumed?
    ensures WatchesFor(RunAfter(es).value.setup, es[k].record, RunAfter(es).value.watch)
    ensures WatchAfter(RunAfter(es).value.watch, es[k + 1..]) == Some(RunAfter(es).value.w)
  {
    var pc, before, e := RunAfter(es).value, es[..|es| - 1], es[|es| - 1];
    WatchEntry(RunAfter(before).value, e, pc);
    hide RunAfter, Next, WatchNext, WatchesFor, EnterWatch, WatchAfter;
    if e.Resumed? && pc == EnterWatch(pc.setup, pc.d, e.record) {
      k := |es| - 1;
      assert es[k + 1..] == [];
      EnterWatchHere(pc.setup, pc.d, e.record);
    } else {
      k := WatchPart(before);
      WatchTail(pc.watch, es, k, RunAfter(before).value.w);
    }
  }

  // --- what a run returns ------------------------------------------------------------------------------------------

  /** The instance that the last event stored as running. */
  function StoredVm(es: seq<Event>): Option<Vm> {
    if es == [] then None
    else
      match es[|es| - 1]
      case Saved(LaunchFinished(vm), _, _, out) => if out.ok then Some(vm) else None
      case _ => None
  }

  lemma ProvisionedIsStored(es: seq<Event>)
    requires RunAfter(es).Some? && RunAfter(es).value.Launching? && Succeeded(RunAfter(es).value.l)
    ensures StoredVm(es) == Some(RunAfter(es).value.l.result.vm)
  {
    var pc, before := RunAfter(es).value, RunAfter(es[..|es| - 1]).value;
    LaunchEntry(before, es[|es| - 1], pc);
    hide RunAfter, Next, LaunchNext, LaunchPlan;
    NotAtOnce(pc.launch);
    if before.Launching? && LaunchNext(pc.launch, before.l, es[|es| - 1]) == Some(pc.l) {
      SuccessIsStored(pc.launch, before.l, es[|es| - 1]);
    }
  }

  /** A run that returns an instance has just stored it as running; and a run that has just stored an instance as
      running returns it. */
  lemma ReturnsStored(es: seq<Event>, exit: Event)
    requires RunAfter(es + [exit]) == Some(Idle) && exit.Exited?
    ensures exit.ok && exit.instanceID != "" ==>
      StoredVm(es).Some? && (StoredVm(es).value.id == exit.instanceID || StoredVm(es).value.id == "")
    ensures StoredVm(es).Some? ==> exit.ok && (StoredVm(es).value.id != "" ==> exit.instanceID == StoredVm(es).value.id)
  {
    RunSnoc(es, exit);
    Knowing(es);
    var pc := RunAfter(es).value;
    if pc.Launching? && Succeeded(pc.l) {
      ProvisionedIsStored(es);
    }
    if StoredVm(es).Some? {
      var all := es + [exit];
      WhatFollows(all, |es| - 1);
      assert all[..|es|] == es;
    }
    hide RunAfter, LaunchNext, WatchNext, LaunchPlan, StatusTells, Feasible, StoredVm, AfterSettled;
  }

  // --- why a run fails ---------------------------------------------------------------------------------------------

  /** The event itself is a reason to give up: a save that failed, a decision that is not safe, an error that was
      stored, an interrupted sleep, a cancelled call, an answer that ends an engine, or a configuration it refuses. */
  ghost predicate Justifies(setup: Setup, e: Event) {
    match e
    case Saved(write, before, now, out) =>
      || !out.ok || write.LaunchFailed? || (write.Progressed? && write.progress.status == ProbeKind.Fatal)
      || (write.Settled? && Contested(InputOn(setup.key, write.seen, before, now)))
    case Slept(_, ok, _) => !ok
    case Probed(_, probe, cancelled, _) =>
      || cancelled
      || (!probe.timedOut && (probe.kind == ProbeKind.Canceled || probe.kind.Other?
                              || (probe.kind == ProbeKind.Unset && !probe.failed)))
    case Launched(_, answer, cancelled) =>
      || cancelled || answer.kind == LaunchKind.Canceled || answer.kind.Other?
      || (answer.kind == Accepted && answer.id == "")
    case Looked(_, look, cancelled) => cancelled || look.LookFailed?
    case Fetched(_, get, cancelled) => cancelled || get == GetFailed(Some(LaunchKind.Canceled))
    case Resumed(_) => !Operable(setup)
    case Placed(_) => setup.timeout <= 0 || setup.retryMin <= 0 || setup.retryMax < setup.retryMin
    case _ => false
  }

  /** After the event the run still needs a lock, a readable file or a draw. */
  predicate NeedsMore(e: Event) {
    match e
    case Discovered(_, _) => true
    case Guarded(_) => true
    case Saved(write, _, _, out) => out.ok && (write.Settled? || write.Rotated?)
    case Launched(_, answer, cancelled) => !cancelled && answer.kind == OutOfCapacity
    case _ => false
  }

  /** The last event is a reason for the run to give up. */
  ghost predicate Blamed(es: seq<Event>) {
    es != [] && LastListing(es).Some? && Justifies(LastListing(es).value.setup, es[|es| - 1])
  }

  lemma WatchErrs(plan: WatchInput, w: WatchPc, e: Event, setup: Setup)
    requires !w.Watched? && WatchNext(plan, w, e).Some? && WatchNext(plan, w, e).value.Watched?
    requires WatchNext(plan, w, e).value.result.WatchError? && StatusTells(plan, w)
    ensures Justifies(setup, e)
  {
    hide DelayFor, OnMiss, Contested, Operable;
    if w.Probing? && e.Probed? && !e.cancelled {
      MissesGoOn(plan, w.st, e);
    }
  }

  lemma MissesGoOn(plan: WatchInput, st: Progress, e: Event)
    requires e.Probed? && plan.domains != []
    ensures !OnMiss(plan, st, Effective(e.probe), e.domain, e.probe.retryAfter).Watched?
  {
  }

  lemma LaunchErrs(plan: LaunchInput, l: LaunchPc, e: Event, setup: Setup)
    requires LaunchNext(plan, l, e).Some? && LaunchNext(plan, l, e).value.Done?
    requires LaunchNext(plan, l, e).value.result.LaunchError?
    ensures
      Justifies(setup, e) || (NeedsMore(e) && LaunchNext(plan, l, e).value == CAPACITY_LOST && BeforeInstance(l))
  {
    hide Capped, Contested, Operable;
  }

  lemma StartErrs(setup: Setup, d: Decision, r: Record)
    ensures LaunchStart(LaunchPlan(setup, d)).Done? ==> Justifies(setup, Placed(d.instanceID))
    ensures WatchStart(WatchPlan(setup, r)).Watched? ==> Justifies(setup, Resumed(r))
  {
    hide ResumeFrom;
  }

  lemma SettledErrs(setup: Setup, seen: seq<Instance>, e: Event)
    requires e.Saved? && OnSettled(setup, seen, e) == Some(Leaving)
    ensures Justifies(setup, e)
  {
    DecisionExactly(InputOn(setup.key, seen, e.before, e.now));
    hide Verdict, Feasible, NewAttempt, Contested;
  }

  /** The last of `es` leads from `before` to `pc`, where the run may fail. */
  ghost predicate Falters(es: seq<Event>, before: Pc, pc: Pc) {
    && es != [] && Next(before, es[|es| - 1]) == Some(pc) && MayFail(pc)
    && Knows(es[..|es| - 1], before) && Knows(es, pc)
  }

  /** The last event is a reason to fail at `pc`; or the decision, the next attempt or their locks need more than was
      there. */
  ghost predicate Explains(es: seq<Event>, pc: Pc) {
    || Blamed(es)
    || (es != [] && NeedsMore(es[|es| - 1]) && !pc.Leaving? && !pc.Watching?
        && (pc.Launching? ==> pc.l == CAPACITY_LOST && CreateSafe(pc.d.kind)))
  }

  lemma RotatedErrs(setup: Setup, d: Decision, launch: LaunchInput, l: LaunchPc, e: Event, any: Setup)
    requires InLaunch(setup, d, launch, l, e).Some? && !InLaunch(setup, d, launch, l, e).value.Launching?
    ensures var pc := InLaunch(setup, d, launch, l, e).value;
      pc.Idle? || Justifies(any, e) || (NeedsMore(e) && !pc.Leaving?)
  {
    hide LaunchNext, Feasible, NewAttempt, Contested, Operable;
  }

  lemma WatchKeeps(setup: Setup, d: Decision, watch: WatchInput, w: WatchPc, e: Event)
    requires InWatch(setup, d, watch, w, e).Some?
    ensures var pc := InWatch(setup, d, watch, w, e).value; pc.Watching? || pc.Launching? || pc.Idle?
  {
    hide WatchNext, Feasible, LaunchStart;
  }

  lemma DecidingStep(setup: Setup, before: Pc, e: Event, pc: Pc)
    requires Next(before, e) == Some(pc) && MayFail(pc) && !pc.Watching? && !pc.Launching?
    requires before.Holding? ==> before.setup == setup
    ensures Justifies(setup, e) || (NeedsMore(e) && !pc.Leaving?)
  {
    hide InWatch, InLaunch, OnSettled, Justifies, LaunchStart, WatchStart;
    match before
    case Holding(_, seen) =>
      SettledNeeds(setup, seen, e);
      if pc.Leaving? { SettledErrs(setup, seen, e); }
    case Launching(other, d, launch, l) => RotatedErrs(other, d, launch, l, e, setup);
    case Watching(other, d, watch, w) => WatchKeeps(other, d, watch, w, e);
    case _ =>
  }

  lemma DecidingErrs(es: seq<Event>, before: Pc, pc: Pc)
    requires Falters(es, before, pc) && !pc.Watching? && !pc.Launching?
    ensures Explains(es, pc)
  {
    hide Justifies, NeedsMore, StatusTells, LaunchPlan, BeforeInstance, InWatch, InLaunch, OnSettled, NotLost;
    DecidingStep(LastListing(es).value.setup, before, es[|es| - 1], pc);
  }

  lemma SettledNeeds(setup: Setup, seen: seq<Instance>, e: Event)
    requires e.Saved?
    ensures OnSettled(setup, seen, e).Some? ==>
      OnSettled(setup, seen, e).value.Leaving? || (OnSettled(setup, seen, e).value.Chosen? && NeedsMore(e))
  {
    hide VerdictOn, Feasible;
  }

  lemma WatchingErrs(es: seq<Event>, before: Pc, pc: Pc)
    requires Falters(es, before, pc) && pc.Watching?
    ensures Explains(es, pc)
  {
    var e := es[|es| - 1];
    WatchEntry(before, e, pc);
    hide Next, WatchNext, WatchPlan, WatchStart, Justifies;
    if e.Resumed? && pc == EnterWatch(pc.setup, pc.d, e.record) {
      StartErrs(pc.setup, pc.d, e.record);
    } else {
      NotOver(before, e);
      WatchErrs(pc.watch, before.w, e, pc.setup);
    }
  }

  lemma NotOver(before: Pc, e: Event)
    requires before.Watching? && WatchNext(before.watch, before.w, e).Some?
    ensures !before.w.Watched?
  {
  }

  lemma LaunchingErrs(es: seq<Event>, before: Pc, pc: Pc)
    requires Falters(es, before, pc) && pc.Launching?
    ensures Explains(es, pc)
  {
    var e := es[|es| - 1];
    LaunchEntry(before, e, pc);
    hide Next, LaunchNext, LaunchPlan, LaunchStart, Justifies;
    if e == Placed(pc.d.instanceID) && pc == EnterLaunch(pc.setup, pc.d) {
      StartErrs(pc.setup, pc.d, Empty(pc.setup.key));
    } else {
      LaunchErrs(pc.launch, before.l, e, pc.setup);
    }
  }

  /** Where a run may fail, the last event is a reason, or something more was needed. */
  lemma FailsAfter(es: seq<Event>)
    requires RunAfter(es).Some? && MayFail(RunAfter(es).value)
    ensures Explains(es, RunAfter(es).value)
  {
    FaltersHere(es);
    var before, pc := RunAfter(es[..|es| - 1]).value, RunAfter(es).value;
    hide *;
    if pc.Watching? {
      WatchingErrs(es, before, pc);
    } else if pc.Launching? {
      LaunchingErrs(es, before, pc);
    } else {
      DecidingErrs(es, before, pc);
    }
  }

  lemma FaltersHere(es: seq<Event>)
    requires RunAfter(es).Some? && MayFail(RunAfter(es).value)
    ensures es != [] && RunAfter(es[..|es| - 1]).Some?
    ensures Falters(es, RunAfter(es[..|es| - 1]).value, RunAfter(es).value)
  {
    assert es != [];
    assert RunAfter(es[..|es| - 1]).Some?;
    hide Next, Knows, MayFail;
    Knowing(es);
    Knowing(es[..|es| - 1]);
  }
}
