/** internal/launch/launch.go and internal/launch/runtime.go: the orchestrator as it runs. */
module Launch {
  import opened Basics
  import opened State
  import opened Events
  import opened LaunchSpec
  import opened World
  import LaunchCalls

  /** `StateStore.update` with the closures of `Accepted`, `Finished` and `Failed`. */
  method Update(w: Env, write: Write) returns (ok: bool)
    requires write.LaunchAccepted? || write.LaunchFinished? || write.LaunchFailed?
    modifies w
    ensures w.Advances() && exists now, out :: w.Writes(write, now, out) && ok == out.ok
    ensures ok || w.refusals > old(w.refusals) || old(w.record).None?
  {
    var locked := w.TryLock();
    if !locked {
      w.GiveUp(write);
      assert w.Writes(write, w.clock, Outcome(false, false));
      return false;
    }
    var loaded := w.Load();
    if !loaded.Have? {
      w.GiveUp(write);
      assert w.Writes(write, w.clock, Outcome(false, false));
      return false;
    }
    var value := loaded.record;
    match write {
      case LaunchAccepted(id) =>
        value := value.(phase := Provisioning);
        value := value.(instanceID := id);
        value := value.(lastResult := "launch accepted");
      case LaunchFinished(vm) =>
        value := value.(phase := Running);
        value := value.(instanceID := vm.id, publicIP := vm.publicIP, lastResult := vm.state, lastError := "");
      case LaunchFailed(text) =>
        value := value.(phase := Failed);
        value := value.(lastError := text);
    }
    var now := w.Now();
    value := value.(updatedAt := now);
    label saving:
    ok := w.Save(value, write, now);
    ghost var out :| w.Writes@saving(write, now, out) && ok == out.ok;
    assert w.Writes(write, now, out);
  }

  /** `Orchestrator.failed` */
  method Fail(w: Env, plan: LaunchInput, kind: Option<LaunchKind>) returns (result: LaunchResult)
    requires LaunchAfter(plan, w.log) == Some(Failing(kind))
    modifies w
    ensures w.Advances() && LaunchAfter(plan, w.log) == Some(Done(result))
  {
    LaunchSnoc(plan);
    hide LaunchAfter, Faithful, Replay, Timed, Latest;
    var text := w.Message();
    var _ := Update(w, LaunchFailed(text));
    result := LaunchError(kind);
  }

  /** The instance the launch loop goes on with, none yet, or the end of the attempt. */
  datatype Obtained = Known(id: string) | Again | Ended(result: LaunchResult)

  function Position(progress: Obtained, retry: nat): LaunchPc {
    match progress
    case Known(id) => Polling(id)
    case Again => Requesting(retry + 1)
    case Ended(result) => Done(result)
  }

  function IfKnown(id: string): Obtained {
    if id == "" then Again else Known(id)
  }

  /** The answers that settle an instance: accepted, or found behind a service limit. */
  method Adopt(w: Env, plan: LaunchInput, retry: nat, id: string) returns (progress: Obtained)
    requires LaunchAfter(plan, w.log) == Some(Accepting(retry, id))
    modifies w
    ensures w.Advances() && LaunchAfter(plan, w.log) == Some(Position(progress, retry))
    ensures progress.Again? ==> id == ""
  {
    LaunchSnoc(plan);
    hide LaunchAfter, Faithful, Replay, Timed, Latest;
    var ok := Update(w, LaunchAccepted(id));
    progress := if ok then IfKnown(id) else Ended(LaunchError(None));
  }

  method ResolveLimit(w: Env, plan: LaunchInput, retry: nat) returns (progress: Obtained)
    requires LaunchAfter(plan, w.log) == Some(Looking(retry))
    modifies w
    ensures w.Advances() && LaunchAfter(plan, w.log) == Some(Position(progress, retry))
  {
    LaunchSnoc(plan);
    hide LaunchAfter, Faithful, Replay, Timed, Latest;
    var look, cancelled := w.Reconcile(plan.request);
    if cancelled {
      return Ended(LaunchError(None));
    }
    match look {
      case LookFailed(kind) =>
        progress := Ended(LaunchError(kind));
      case Found(id) =>
        progress := Adopt(w, plan, retry, id);
      case Absent =>
        var result := Fail(w, plan, Some(LimitExceeded));
        progress := Ended(result);
    }
  }

  method BackOff(w: Env, plan: LaunchInput, retry: nat, kind: LaunchKind, retryAfter: int) returns (progress: Obtained)
    requires ValidInput(plan) && plan.retryMax <= MAX_DURATION
    requires LaunchAfter(plan, w.log) == Some(
      if Capped(plan, retry) == plan.retryMax then Failing(Some(kind))
      else Backing(retry, if retryAfter > Capped(plan, retry) then retryAfter else Capped(plan, retry)))
    modifies w
    ensures w.Advances() && LaunchAfter(plan, w.log) == Some(Position(progress, retry))
    ensures !progress.Known?
  {
    LaunchSnoc(plan);
    hide LaunchAfter, Faithful, Replay, Timed, Latest;
    var capped := LaunchBackoff(plan.retryMin as Duration, plan.retryMax as Duration, retry);
    var delay := capped as int;
    if delay == plan.retryMax {
      var result := Fail(w, plan, Some(kind));
      return Ended(result);
    }
    if retryAfter > delay {
      delay := retryAfter;
    }
    var woke := w.Sleep(delay);
    progress := if woke then Again else Ended(LaunchError(None));
  }

  /** One pass through the body of the launch loop. */
  method Attempt(w: Env, plan: LaunchInput, retry: nat) returns (progress: Obtained)
    requires ValidInput(plan) && plan.retryMax <= MAX_DURATION
    requires LaunchAfter(plan, w.log) == Some(Requesting(retry))
    modifies w
    ensures w.Advances() && LaunchAfter(plan, w.log) == Some(Position(progress, retry))
    ensures !progress.Ended? ==> old(w.tick) < w.horizon
  {
    LaunchSnoc(plan);
    hide LaunchAfter, Faithful, Replay, Timed, Latest;
    var answer, cancelled := w.Launch(plan.request);
    if cancelled {
      return Ended(LaunchError(None));
    }
    var kind := answer.kind;
    if answer.timedOut && kind == LaunchKind.Unset {
      kind := Ambiguous;
    }
    match kind {
      case Accepted =>
        if answer.id == "" {
          return Ended(LaunchError(None));
        }
        progress := Adopt(w, plan, retry, answer.id);
      case OutOfCapacity =>
        progress := Ended(LaunchError(Some(OutOfCapacity)));
      case LimitExceeded =>
        progress := ResolveLimit(w, plan, retry);
      case Fatal =>
        var result := Fail(w, plan, Some(LaunchKind.Fatal));
        progress := Ended(result);
      case Canceled =>
        progress := Ended(LaunchError(Some(LaunchKind.Canceled)));
      case Other(_) =>
        progress := Ended(LaunchError(None));
      case _ =>
        progress := BackOff(w, plan, retry, kind, answer.retryAfter);
    }
  }

  /** The launch loop: until an instance is known, or the attempt ends. */
  method Obtain(w: Env, plan: LaunchInput) returns (progress: Obtained)
    requires ValidInput(plan) && plan.retryMax <= MAX_DURATION
    requires w.log == [] && plan.existing == ""
    modifies w
    ensures w.Advances()
    ensures !progress.Again? && LaunchAfter(plan, w.log) == Some(Position(progress, 0))
  {
    var retry := 0;
    progress := Attempt(w, plan, retry);
    while progress == Again
      invariant w.Advances()
      invariant LaunchAfter(plan, w.log) == Some(Position(progress, retry))
      decreases if w.tick <= w.horizon then w.horizon + 1 - w.tick else 0, progress == Again
    {
      retry := retry + 1;
      progress := Attempt(w, plan, retry);
    }
  }

  /** One pass through the body of the public-address loop. */
  method LookUp(w: Env, plan: LaunchInput, id: string, before: Vm, retry: nat)
    returns (vm: Vm, found: bool, ended: Option<LaunchResult>)
    requires ValidInput(plan) && plan.retryMax <= MAX_DURATION
    requires LaunchAfter(plan, w.log) == Some(AwaitingIP(id, before, retry))
    modifies w
    ensures w.Advances()
    ensures LaunchAfter(plan, w.log) == Some(
      if ended.Some? then Done(ended.value) else if found then Finishing(id, vm) else AwaitingIP(id, vm, retry + 1))
    ensures ended.None? && !found ==> Capped(plan, retry) != plan.retryMax
  {
    LaunchSnoc(plan);
    hide LaunchAfter, Faithful, Replay, Timed, Latest;
    vm, found, ended := before, false, Some(LaunchError(None));
    var capped := LaunchBackoff(plan.retryMin as Duration, plan.retryMax as Duration, retry);
    var delay := capped as int;
    var woke := w.Sleep(delay);
    if !woke {
      return;
    }
    var get, cancelled := w.Get(id);
    if cancelled {
      return;
    }
    ended := None;
    if get.Got? {
      vm := get.vm;
      if vm.publicIP != "" {
        found := true;
        return;
      }
    }
    found := delay == plan.retryMax;
  }

  /** The public-address loop, entered with a running instance that has none: ends by itself. */
  method AwaitAddress(w: Env, plan: LaunchInput, id: string, running: Vm) returns (vm: Vm, ended: Option<LaunchResult>)
    requires ValidInput(plan) && plan.retryMax <= MAX_DURATION
    requires LaunchAfter(plan, w.log) == Some(AwaitingIP(id, running, 0))
    modifies w
    ensures w.Advances()
    ensures LaunchAfter(plan, w.log) == Some(if ended.Some? then Done(ended.value) else Finishing(id, vm))
  {
    hide LaunchAfter, Faithful, Replay, Timed, Latest, Doublings;
    var found;
    var retry := 0;
    DelayShape(plan.retryMin, plan.retryMax, 0, 0);
    vm, found, ended := LookUp(w, plan, id, running, 0);
    while !found && ended.None?
      invariant w.Advances() && retry >= 0
      invariant LaunchAfter(plan, w.log) == Some(
        if ended.Some? then Done(ended.value) else if found then Finishing(id, vm) else AwaitingIP(id, vm, retry + 1))
      invariant !found && ended.None? ==> retry < Doublings(plan.retryMin, plan.retryMax)
      decreases !found && ended.None?, Doublings(plan.retryMin, plan.retryMax) - retry
    {
      retry := retry + 1;
      DelayShape(plan.retryMin, plan.retryMax, retry, retry);
      vm, found, ended := LookUp(w, plan, id, vm, retry);
    }
  }

  /** One pass through the body of the poll loop. */
  method Poll(w: Env, plan: LaunchInput, id: string) returns (ended: Option<LaunchResult>)
    requires ValidInput(plan) && plan.retryMax <= MAX_DURATION
    requires LaunchAfter(plan, w.log) == Some(Polling(id))
    modifies w
    ensures w.Advances()
    ensures LaunchAfter(plan, w.log) == Some(if ended.Some? then Done(ended.value) else Polling(id))
    ensures ended.None? ==> old(w.tick) < w.horizon
  {
    LaunchSnoc(plan);
    hide LaunchAfter, Faithful, Replay, Timed, Latest, Capped, ValidInput;
    var get, cancelled := w.Get(id);
    if cancelled {
      return Some(LaunchError(None));
    }
    if get.GetFailed? {
      if get.kind == Some(LaunchKind.Canceled) {
        return Some(LaunchError(get.kind));
      }
      if get.kind == Some(LaunchKind.Fatal) || get.kind == Some(LimitExceeded) {
        var result := Fail(w, plan, get.kind);
        return Some(result);
      }
    } else if get.vm.state == RUNNING {
      var result := Complete(w, plan, id, get.vm);
      return Some(result);
    } else if get.vm.state == TERMINATED || get.vm.state == TERMINATING {
      var result := Fail(w, plan, None);
      return Some(result);
    }
    var woke := w.Sleep(plan.retryMin);
    ended := if woke then None else Some(LaunchError(None));
  }

  /** The running branch: wait for the address if one is expected, then store the result. */
  method Complete(w: Env, plan: LaunchInput, id: string, running: Vm) returns (result: LaunchResult)
    requires ValidInput(plan) && plan.retryMax <= MAX_DURATION
    requires LaunchAfter(plan, w.log) == Some(
      if plan.publicIP && running.publicIP == "" then AwaitingIP(id, running, 0) else Finishing(id, running))
    modifies w
    ensures w.Advances() && LaunchAfter(plan, w.log) == Some(Done(result))
  {
    LaunchSnoc(plan);
    hide LaunchAfter, Faithful, Replay, Timed, Latest;
    var vm := running;
    if plan.publicIP && vm.publicIP == "" {
      var ended;
      vm, ended := AwaitAddress(w, plan, id, vm);
      if ended.Some? {
        return ended.value;
      }
    }
    var ok := Update(w, LaunchFinished(vm));
    result := if ok then Provisioned(vm) else LaunchError(None);
  }

  /** The poll loop: until the instance runs or is gone. */
  method Follow(w: Env, plan: LaunchInput, instanceID: string) returns (result: LaunchResult)
    requires ValidInput(plan) && plan.retryMax <= MAX_DURATION
    requires LaunchAfter(plan, w.log) == Some(Polling(instanceID))
    modifies w
    ensures w.Advances()
    ensures LaunchAfter(plan, w.log) == Some(Done(result))
  {
    var ended := Poll(w, plan, instanceID);
    while ended.None?
      invariant w.Advances()
      invariant LaunchAfter(plan, w.log) == Some(if ended.Some? then Done(ended.value) else Polling(instanceID))
      decreases ended.None?, w.horizon - w.tick
    {
      ended := Poll(w, plan, instanceID);
    }
    result := ended.value;
  }

  /** `Orchestrator.Run`: whatever the environment answers, what it did since the mark is a complete behaviour of the
      automaton with its own result, so the store protocol and the budgets hold of it. */
  method Run(w: Env, plan: LaunchInput) returns (result: LaunchResult)
    requires plan.retryMax <= MAX_DURATION
    modifies w
    ensures w.Enters() && LaunchAfter(plan, w.log) == Some(Done(result))
    ensures LaunchCalls.AllMade(plan, w.log) && LaunchCalls.Due(plan, w.log) == LaunchCalls.Returns(result)
    ensures forall i: nat, cause | i < |w.log| && LaunchCalls.Hopeless(w.log, i, cause) ::
      LaunchCalls.EndsFailed(w.log, i, cause, Some(result))
    ensures AllFoundNamed(w.log) ==> StorePattern(StoreCalls(w.log))
    ensures AllFoundNamed(w.log) && result == LaunchError(Some(OutOfCapacity)) ==> StoreCalls(w.log) == []
    ensures AllFoundNamed(w.log) && result.Provisioned? ==>
      exists id :: SeenRunning(w.log, id) && Followed(plan, w.log, id)
    ensures AllFoundNamed(w.log) && ValidInput(plan) ==>
      && Launches(w.log) <= Doublings(plan.retryMin, plan.retryMax) + 1
      && Lookups(plan, w.log) <= Doublings(plan.retryMin, plan.retryMax) + 1
    ensures AllFoundNamed(w.log) && NeverGuided(w.log) && ValidInput(plan) ==> Spent(plan, w.log) < 2 * plan.retryMax
  {
    w.Mark();
    if plan.timeout <= 0 || plan.retryMin <= 0 || plan.retryMax < plan.retryMin {
      return LaunchError(None);
    }
    var progress := Known(plan.existing);
    if plan.existing == "" {
      progress := Obtain(w, plan);
    }
    match progress {
      case Ended(ended) => result := ended;
      case Known(id) => result := Follow(w, plan, id);
    }
    LaunchCalls.CallsAreDue(plan, w.log);
    forall i: nat, cause | i < |w.log| && LaunchCalls.Hopeless(w.log, i, cause)
      ensures LaunchCalls.EndsFailed(w.log, i, cause, Some(result))
    {
      LaunchCalls.HopelessEnds(plan, w.log, i, cause);
    }
    if AllFoundNamed(w.log) {
      StoreProtocol(plan, w.log);
      if ValidInput(plan) {
        var k := Doublings(plan.retryMin, plan.retryMax);
        DoublingsIsLeast(plan.retryMin, plan.retryMax, k);
        LaunchesAreBounded(plan, w.log, k);
        LookupsAreBounded(plan, w.log, k);
        if NeverGuided(w.log) {
          SleepIsBounded(plan, w.log);
        }
      }
    }
  }
}
