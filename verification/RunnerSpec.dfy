/** What one process may do during `app.Runner.Run`, as an automaton over events: discovery, run lock, decision, and
    then the two retry engines in a loop that replaces the launch attempt when capacity was lost in between. */
module RunnerSpec {
  import opened Basics
  import opened Reconcile
  import opened State
  import opened Events
  import opened LaunchSpec
  import opened WatchSpec
  import opened Watch

  datatype Pc =
    | Idle
    | Observed(setup: Setup, seen: seq<Instance>)
    | Barred
    | Holding(setup: Setup, seen: seq<Instance>)
    | Leaving
    | Chosen(setup: Setup, d: Decision)
    | Watching(setup: Setup, d: Decision, watch: WatchInput, w: WatchPc)
    | Launching(setup: Setup, d: Decision, launch: LaunchInput, l: LaunchPc)

  /** Both engines accept the configuration of the run. */
  predicate Operable(setup: Setup) {
    setup.complete && setup.domains != [] && setup.timeout > 0 && 0 < setup.retryMin <= setup.retryMax
  }

  /** The decision with the attempt that was written ahead. */
  function WithDraw(d: Decision, draw: Option<seq<Byte>>, now: Time): Decision {
    if d.kind == Create || d.kind == NewAttemptSafe then d.(attempt := NewAttempt(draw, now, ATTEMPT_VALIDITY)) else d
  }

  /** The hand-off of main.go: a decision without an attempt launches with an empty one. */
  function LaunchPlan(setup: Setup, d: Decision): LaunchInput {
    LaunchInput(Request(setup.key, if d.attempt.Some? then d.attempt.value.token else ""), setup.publicIP, d.instanceID,
                setup.timeout, setup.retryMin, setup.retryMax)
  }

  function EnterWatch(setup: Setup, d: Decision, r: Record): Pc {
    Watching(setup, d, WatchPlan(setup, r), WatchStart(WatchPlan(setup, r)))
  }

  function EnterLaunch(setup: Setup, d: Decision): Pc {
    Launching(setup, d, LaunchPlan(setup, d), LaunchStart(LaunchPlan(setup, d)))
  }

  const CAPACITY_LOST := Done(LaunchError(Some(OutOfCapacity)))

  function OnSettled(setup: Setup, seen: seq<Instance>, e: Event): Option<Pc>
    requires e.Saved?
  {
    if !e.write.Settled? || e.write.seen != seen || !Feasible(setup.key, e.write, e.before, e.now, e.out) then None
    else
      var d := WithDraw(VerdictOn(setup.key, seen, e.before, e.now), e.write.draw, e.now);
      Some(if e.out.ok && d.kind != Conflict then Chosen(setup, d) else Leaving)
  }

  function OnRotated(setup: Setup, d: Decision, e: Event): Option<Pc>
    requires e.Saved?
  {
    if !e.write.Rotated? || !Feasible(setup.key, e.write, e.before, e.now, e.out) then None
    else if !e.out.ok then Some(Leaving)
    else Some(Chosen(setup, d.(attempt := NewAttempt(e.write.draw, e.now, ATTEMPT_VALIDITY))))
  }

  function InWatch(setup: Setup, d: Decision, watch: WatchInput, w: WatchPc, e: Event): Option<Pc> {
    if w.Watched? then
      if w.result.Placement? then
        if setup.once && w.result.kind == Unavailable then
          if e == Exited(true, d.instanceID) then Some(Idle) else None
        else if e == Placed(d.instanceID) then Some(EnterLaunch(setup, d)) else None
      else None
    else if e.Saved? && !Feasible(setup.key, e.write, e.before, e.now, e.out) then None
    else
      var w' := WatchNext(watch, w, e);
      if w'.Some? then Some(Watching(setup, d, watch, w'.value)) else None
  }

  function InLaunch(setup: Setup, d: Decision, launch: LaunchInput, l: LaunchPc, e: Event): Option<Pc> {
    if l == CAPACITY_LOST && CreateSafe(d.kind) then
      if setup.once then (if e == Exited(true, d.instanceID) then Some(Idle) else None)
      else if e.Saved? then OnRotated(setup, d, e) else None
    else if l.Done? then
      if l.result.Provisioned? && e == Exited(true, if l.result.vm.id != "" then l.result.vm.id else d.instanceID)
      then Some(Idle) else None
    else if e.Saved? && !Feasible(setup.key, e.write, e.before, e.now, e.out) then None
    else
      var l' := LaunchNext(launch, l, e);
      if l'.Some? then Some(Launching(setup, d, launch, l'.value)) else None
  }

  /** Where a run may end with an error: before it has the run lock, while it decides, when the key file or the record
      cannot be read, and after an error of either engine. */
  predicate MayFail(pc: Pc) {
    match pc
    case Idle => false
    case Chosen(_, d) => CreateSafe(d.kind)
    case Watching(_, _, _, w) => w.Watched? && w.result.WatchError?
    case Launching(setup, d, _, l) =>
      l.Done? && l.result.LaunchError? && (l == CAPACITY_LOST && CreateSafe(d.kind) ==> !setup.once)
    case _ => true
  }

  function Next(pc: Pc, e: Event): Option<Pc> {
    if e == Exited(false, "") then (if MayFail(pc) then Some(Idle) else None)
    else match pc
      case Idle => if e.Discovered? then Some(Observed(e.setup, e.seen)) else None
      case Observed(setup, seen) => if e.Guarded? then Some(if e.ok then Holding(setup, seen) else Barred) else None
      case Holding(setup, seen) => if e.Saved? then OnSettled(setup, seen, e) else None
      case Chosen(setup, d) =>
        if CreateSafe(d.kind) then (if e.Resumed? then Some(EnterWatch(setup, d, e.record)) else None)
        else if d.instanceID != "" then (if e == Placed(d.instanceID) then Some(EnterLaunch(setup, d)) else None)
        else if e == Exited(true, "") then Some(Idle) else None
      case Watching(setup, d, watch, w) => InWatch(setup, d, watch, w, e)
      case Launching(setup, d, launch, l) => InLaunch(setup, d, launch, l, e)
      case _ => None
  }

  function RunAfter(es: seq<Event>): Option<Pc> {
    if es == [] then Some(Idle)
    else
      var pc := RunAfter(es[..|es| - 1]);
      if pc.None? then None else Next(pc.value, es[|es| - 1])
  }

  lemma RunSnoc(es: seq<Event>, e: Event)
    ensures RunAfter(es + [e]) == if RunAfter(es).None? then None else Next(RunAfter(es).value, e)
  {
    assert (es + [e])[..|es + [e]| - 1] == es;
  }

  /** Every save in the sequence could have been written as it says. */
  predicate AllFeasible(key: Key, es: seq<Event>) {
    forall e | e in es && e.Saved? :: Feasible(key, e.write, e.before, e.now, e.out)
  }

  lemma LaunchMoves(setup: Setup, d: Decision, launch: LaunchInput, l: LaunchPc, e: Event)
    requires LaunchNext(launch, l, e).Some? && !e.Exited?
    requires e.Saved? ==> Feasible(setup.key, e.write, e.before, e.now, e.out)
    ensures Next(Launching(setup, d, launch, l), e) == Some(Launching(setup, d, launch, LaunchNext(launch, l, e).value))
  {
    assert !l.Done?;
    hide LaunchNext, Feasible;
  }

  /** A behaviour of the launch engine is a behaviour of the run that entered it. */
  lemma {:induction false} LaunchWithin(es: seq<Event>, setup: Setup, d: Decision, launch: LaunchInput,
                                       more: seq<Event>)
    requires RunAfter(es) == Some(Launching(setup, d, launch, LaunchStart(launch)))
    requires LaunchAfter(launch, more).Some? && AllFeasible(setup.key, more)
    requires forall e | e in more :: !e.Exited?
    ensures RunAfter(es + more) == Some(Launching(setup, d, launch, LaunchAfter(launch, more).value))
  {
    hide Next, LaunchNext, Feasible;
    if more == [] {
      assert es + more == es;
    } else {
      var before, e := more[..|more| - 1], more[|more| - 1];
      assert e in more;
      LaunchWithin(es, setup, d, launch, before);
      assert es + more == (es + before) + [e];
      RunSnoc(es + before, e);
      LaunchMoves(setup, d, launch, LaunchAfter(launch, before).value, e);
    }
  }

  lemma WatchMoves(setup: Setup, d: Decision, watch: WatchInput, w: WatchPc, e: Event)
    requires WatchNext(watch, w, e).Some? && !e.Exited?
    requires e.Saved? ==> Feasible(setup.key, e.write, e.before, e.now, e.out)
    ensures Next(Watching(setup, d, watch, w), e) == Some(Watching(setup, d, watch, WatchNext(watch, w, e).value))
  {
    assert !w.Watched?;
    hide WatchNext, Feasible;
  }

  /** A behaviour of the capacity watcher is a behaviour of the run that entered it. */
  lemma {:induction false} WatchWithin(es: seq<Event>, setup: Setup, d: Decision, watch: WatchInput, more: seq<Event>)
    requires RunAfter(es) == Some(Watching(setup, d, watch, WatchStart(watch)))
    requires WatchAfter(watch, more).Some? && AllFeasible(setup.key, more)
    requires forall e | e in more :: !e.Exited?
    ensures RunAfter(es + more) == Some(Watching(setup, d, watch, WatchAfter(watch, more).value))
  {
    hide Next, WatchNext, Feasible;
    if more == [] {
      assert es + more == es;
    } else {
      var before, e := more[..|more| - 1], more[|more| - 1];
      assert e in more;
      WatchWithin(es, setup, d, watch, before);
      assert es + more == (es + before) + [e];
      RunSnoc(es + before, e);
      WatchMoves(setup, d, watch, WatchAfter(watch, before).value, e);
    }
  }
}
