/** The orchestrator without its positions: which call it owes after the events so far. */
module LaunchCalls {
  import opened Basics
  import opened State
  import opened Events
  import opened LaunchSpec

  datatype Call =
    | Requests
    | Looks
    | Gets(id: string)
    | Sleeps(delay: int)
    | Accepts(id: string)
    | Finishes(vm: Vm)
    | Fails(cause: Option<LaunchKind>)
    | Returns(result: LaunchResult)

  predicate Makes(plan: LaunchInput, e: Event, call: Call) {
    match call
    case Requests => e.Launched? && e.request == plan.request
    case Looks => e.Looked? && e.request == plan.request
    case Gets(id) => e.Fetched? && e.id == id
    case Sleeps(delay) => e.Slept? && e.delay == delay
    case Accepts(id) => e.Saved? && e.write == LaunchAccepted(id)
    case Finishes(vm) => e.Saved? && e.write == LaunchFinished(vm)
    case Fails(_) => e.Saved? && e.write.LaunchFailed?
    case Returns(_) => false
  }

  // --- what the events so far tell ---------------------------------------------------------------------------------

  predicate IsRunning(e: Event) {
    e.Fetched? && e.get.Got? && e.get.vm.state == RUNNING
  }

  /** Some `Get` has reported a running instance. */
  predicate HasRun(es: seq<Event>) {
    exists e | e in es :: IsRunning(e)
  }

  /** `Get` calls after the one that first reported a running instance. */
  function AddressLookups(es: seq<Event>): nat {
    if es == [] then 0
    else AddressLookups(es[..|es| - 1]) + (if es[|es| - 1].Fetched? && HasRun(es[..|es| - 1]) then 1 else 0)
  }

  /** The last description of the instance. */
  function LastSeen(es: seq<Event>): Vm {
    if es == [] then Vm("", "", "")
    else if es[|es| - 1].Fetched? && es[|es| - 1].get.Got? then es[|es| - 1].get.vm
    else LastSeen(es[..|es| - 1])
  }

  // --- the call that is due ----------------------------------------------------------------------------------------

  const ENDED := Returns(LaunchError(None))

  /** After a launch answer, `n` launch calls having been made before. */
  ghost function DueLaunched(plan: LaunchInput, n: nat, answer: LaunchAnswer): Call {
    if answer.kind == Accepted then (if answer.id == "" then ENDED else Accepts(answer.id))
    else if answer.kind == OutOfCapacity then Returns(LaunchError(Some(OutOfCapacity)))
    else if answer.kind == LimitExceeded then Looks
    else if answer.kind == LaunchKind.Fatal then Fails(Some(LaunchKind.Fatal))
    else if answer.kind == LaunchKind.Canceled then Returns(LaunchError(Some(LaunchKind.Canceled)))
    else if answer.kind.Other? then ENDED
    else if plan.retryMin * Pow2(n) >= plan.retryMax then
      Fails(Some(if answer.kind == LaunchKind.Unset && answer.timedOut then Ambiguous else answer.kind))
    else if answer.retryAfter > plan.retryMin * Pow2(n) then Sleeps(answer.retryAfter)
    else Sleeps(plan.retryMin * Pow2(n))
  }

  ghost function DueLooked(look: LookAnswer): Call {
    match look
    case Found(id) => Accepts(id)
    case Absent => Fails(Some(LimitExceeded))
    case LookFailed(kind) => Returns(LaunchError(kind))
  }

  /** After a `Get` before any has reported a running instance. */
  ghost function DuePolled(plan: LaunchInput, get: GetAnswer): Call {
    if get.Got? && get.vm.state == "RUNNING" then
      if plan.publicIP && get.vm.publicIP == "" then Sleeps(plan.retryMin) else Finishes(get.vm)
    else if get.Got? && (get.vm.state == "TERMINATED" || get.vm.state == "TERMINATING") then Fails(None)
    else if get == GetFailed(Some(LaunchKind.Canceled)) then Returns(LaunchError(Some(LaunchKind.Canceled)))
    else if get == GetFailed(Some(LaunchKind.Fatal)) || get == GetFailed(Some(LimitExceeded)) then Fails(get.kind)
    else Sleeps(plan.retryMin)
  }

  /** After a lookup of the address, the `n` lookups before not counted; `vm` is the last description. */
  ghost function DueFound(plan: LaunchInput, n: nat, get: GetAnswer, vm: Vm): Call {
    if (get.Got? && vm.publicIP != "") || plan.retryMin * Pow2(n) >= plan.retryMax then Finishes(vm)
    else Sleeps(Min(plan.retryMax, plan.retryMin * Pow2(n + 1)))
  }

  ghost function Due(plan: LaunchInput, es: seq<Event>): Call {
    if es == [] then
      if plan.timeout <= 0 || plan.retryMin <= 0 || plan.retryMax < plan.retryMin then ENDED
      else if plan.existing == "" then Requests else Gets(plan.existing)
    else
      var before := es[..|es| - 1];
      match es[|es| - 1]
      case Launched(_, answer, cancelled) => if cancelled then ENDED else DueLaunched(plan, Launches(before), answer)
      case Looked(_, look, cancelled) => if cancelled then ENDED else DueLooked(look)
      case Fetched(_, get, cancelled) =>
        if cancelled then ENDED
        else if HasRun(before) then DueFound(plan, AddressLookups(before), get, LastSeen(es))
        else DuePolled(plan, get)
      case Slept(_, ok, _) =>
        if !ok then ENDED
        else if before != [] && before[|before| - 1].Fetched? then Gets(before[|before| - 1].id)
        else Requests
      case Saved(LaunchAccepted(id), _, _, out) => if !out.ok then ENDED else if id == "" then Requests else Gets(id)
      case Saved(LaunchFinished(vm), _, _, out) => if out.ok then Returns(Provisioned(vm)) else ENDED
      case Saved(LaunchFailed(_), _, _, _) =>
        if Due(plan, before).Fails? then Returns(LaunchError(Due(plan, before).cause)) else ENDED
      case _ => ENDED
  }

  // --- the automaton makes exactly the calls that are due -----------------------------------------------------------

  function CallOf(plan: LaunchInput, pc: LaunchPc): Call {
    match pc
    case Requesting(_) => Requests
    case Backing(_, delay) => Sleeps(delay)
    case Looking(_) => Looks
    case Accepting(_, id) => Accepts(id)
    case Failing(kind) => Fails(kind)
    case Polling(id) => Gets(id)
    case Pausing(_) => Sleeps(plan.retryMin)
    case AwaitingIP(_, _, n) => Sleeps(Capped(plan, n))
    case LookingUp(id, _, _) => Gets(id)
    case Finishing(_, vm) => Finishes(vm)
    case Done(result) => Returns(result)
  }

  /** What the position remembers is what the events tell. */
  predicate Remembers(es: seq<Event>, pc: LaunchPc) {
    match pc
    case Requesting(n) => n == Launches(es) && !HasRun(es)
    case Backing(n, _) => n + 1 == Launches(es) && !HasRun(es) && es != [] && es[|es| - 1].Launched?
    case Looking(n) => n + 1 == Launches(es) && !HasRun(es)
    case Accepting(n, _) => n + 1 == Launches(es) && !HasRun(es)
    case Polling(_) => !HasRun(es)
    case Pausing(id) => !HasRun(es) && FetchedLast(es, id)
    case AwaitingIP(id, vm, n) => HasRun(es) && FetchedLast(es, id) && LastSeen(es) == vm && AddressLookups(es) == n
    case LookingUp(_, vm, n) => HasRun(es) && LastSeen(es) == vm && AddressLookups(es) == n
    case _ => true
  }

  predicate FetchedLast(es: seq<Event>, id: string) {
    es != [] && es[|es| - 1].Fetched? && es[|es| - 1].id == id
  }

  ghost predicate Tracks(plan: LaunchInput, es: seq<Event>, pc: LaunchPc) {
    Due(plan, es) == CallOf(plan, pc) && Remembers(es, pc) && (!pc.Done? ==> ValidInput(plan))
  }

  lemma CallIsNext(plan: LaunchInput, pc: LaunchPc, e: Event)
    ensures LaunchNext(plan, pc, e).Some? <==> Makes(plan, e, CallOf(plan, pc))
  {
    hide Capped, OnLaunch, OnLook, OnGet, OnLookup;
  }

  lemma CappedFrom(plan: LaunchInput, n: nat)
    requires ValidInput(plan)
    ensures Capped(plan, 0) == plan.retryMin
    ensures Capped(plan, n) == plan.retryMax <==> plan.retryMin * Pow2(n) >= plan.retryMax
    ensures Capped(plan, n) != plan.retryMax ==> Capped(plan, n) == plan.retryMin * Pow2(n)
  {
    DelayDoubles(plan.retryMin, plan.retryMax, 0);
  }

  lemma LookedUp(plan: LaunchInput, n: nat)
    requires ValidInput(plan)
    ensures Capped(plan, n) == plan.retryMax <==> plan.retryMin * Pow2(n) >= plan.retryMax
    ensures Capped(plan, n + 1) == Min(plan.retryMax, plan.retryMin * Pow2(n + 1))
  {
    CappedFrom(plan, n);
  }

  lemma RunningSnoc(es: seq<Event>)
    requires es != []
    ensures HasRun(es) <==> HasRun(es[..|es| - 1]) || IsRunning(es[|es| - 1])
  {
    assert es == es[..|es| - 1] + [es[|es| - 1]];
    assert forall e | e in es :: e in es[..|es| - 1] || e == es[|es| - 1];
    assert es[|es| - 1] in es;
  }

  lemma {:induction false} NoLookups(es: seq<Event>)
    requires !HasRun(es)
    ensures AddressLookups(es) == 0
  {
    if es != [] {
      RunningSnoc(es);
      NoLookups(es[..|es| - 1]);
    }
  }

  lemma TracksStep(plan: LaunchInput, es: seq<Event>, pc: LaunchPc, pc': LaunchPc)
    requires es != [] && Tracks(plan, es[..|es| - 1], pc) && LaunchNext(plan, pc, es[|es| - 1]) == Some(pc')
    ensures Tracks(plan, es, pc')
  {
    assert !pc.Done?;
    hide Tracks, Due, CallOf, LaunchNext, Remembers;
    if BeforeInstance(pc) || pc.Failing? {
      EarlyStep(plan, es, pc, pc');
    } else if pc.Polling? || pc.Pausing? {
      PollStep(plan, es, pc, pc');
    } else {
      AddressStep(plan, es, pc, pc');
    }
  }

  lemma EarlyStep(plan: LaunchInput, es: seq<Event>, pc: LaunchPc, pc': LaunchPc)
    requires BeforeInstance(pc) || pc.Failing?
    requires es != [] && Tracks(plan, es[..|es| - 1], pc) && LaunchNext(plan, pc, es[|es| - 1]) == Some(pc')
    ensures Tracks(plan, es, pc')
  {
    hide Capped, HasRun, Delay, OnGet, OnLookup, DuePolled, DueFound, LastSeen, AddressLookups;
    RunningSnoc(es);
    if pc.Requesting? { CappedFrom(plan, pc.retry); }
  }

  lemma PollStep(plan: LaunchInput, es: seq<Event>, pc: LaunchPc, pc': LaunchPc)
    requires pc.Polling? || pc.Pausing?
    requires es != [] && Tracks(plan, es[..|es| - 1], pc) && LaunchNext(plan, pc, es[|es| - 1]) == Some(pc')
    ensures Tracks(plan, es, pc')
  {
    hide Capped, HasRun, Delay, OnLaunch, OnLook, OnLookup, DueLaunched, DueLooked, Launches, Pow2;
    RunningSnoc(es);
    NoLookups(es[..|es| - 1]);
    CappedFrom(plan, 0);
  }

  lemma AddressStep(plan: LaunchInput, es: seq<Event>, pc: LaunchPc, pc': LaunchPc)
    requires AfterRunning(pc)
    requires es != [] && Tracks(plan, es[..|es| - 1], pc) && LaunchNext(plan, pc, es[|es| - 1]) == Some(pc')
    ensures Tracks(plan, es, pc')
  {
    hide Capped, HasRun, Delay, OnLaunch, OnLook, OnGet, DueLaunched, DueLooked, DuePolled, Launches, Pow2;
    RunningSnoc(es);
    if pc.LookingUp? { LookedUp(plan, pc.retry); }
  }

  ghost predicate Made(plan: LaunchInput, es: seq<Event>, k: nat)
    requires k < |es|
  {
    Makes(plan, es[k], Due(plan, es[..k]))
  }

  /** The events are exactly the calls that were due, each after what happened before it. */
  ghost predicate AllMade(plan: LaunchInput, es: seq<Event>) {
    forall k: nat | k < |es| :: Made(plan, es, k)
  }

  lemma MadeSnoc(plan: LaunchInput, es: seq<Event>)
    requires es != []
    ensures AllMade(plan, es) <==> AllMade(plan, es[..|es| - 1]) && Made(plan, es, |es| - 1)
  {
    var before := es[..|es| - 1];
    forall k: nat | k < |before|
      ensures Made(plan, es, k) <==> Made(plan, before, k)
    {
      assert es[..k] == before[..k];
    }
    hide Made;
  }

  lemma {:induction false} Tracked(plan: LaunchInput, es: seq<Event>)
    ensures LaunchAfter(plan, es).Some? <==> AllMade(plan, es)
    ensures LaunchAfter(plan, es).Some? ==> Tracks(plan, es, LaunchAfter(plan, es).value)
  {
    if es != [] {
      var before, e := es[..|es| - 1], es[|es| - 1];
      Tracked(plan, before);
      MadeSnoc(plan, es);
      if AllMade(plan, before) {
        var pc := LaunchAfter(plan, before).value;
        CallIsNext(plan, pc, e);
        hide LaunchNext, AllMade, Due;
        if LaunchAfter(plan, es).Some? {
          TracksStep(plan, es, pc, LaunchAfter(plan, es).value);
        }
      }
    }
  }

  /** The orchestrator makes the calls that are due and no others, and ends when a return is due: its behaviour is
      determined by the answers it got. */
  lemma CallsAreDue(plan: LaunchInput, es: seq<Event>)
    ensures LaunchAfter(plan, es).Some? <==> AllMade(plan, es)
    ensures forall result :: LaunchAfter(plan, es) == Some(Done(result)) <==>
      AllMade(plan, es) && Due(plan, es) == Returns(result)
  {
    Tracked(plan, es);
    hide LaunchAfter, AllMade, Due;
  }

  /** Event `i` shows that the attempt has failed for the reason `cause`. */
  predicate Hopeless(es: seq<Event>, i: nat, cause: Option<LaunchKind>)
    requires i < |es|
  {
    match es[i]
    case Launched(_, answer, cancelled) =>
      !cancelled && answer.kind == LaunchKind.Fatal && cause == Some(LaunchKind.Fatal)
    case Looked(_, look, cancelled) => !cancelled && look == Absent && cause == Some(LimitExceeded)
    case Fetched(_, get, cancelled) =>
      && !cancelled && (forall k | 0 <= k < i :: !IsRunning(es[k]))
      && (if get.Got? then (get.vm.state == "TERMINATED" || get.vm.state == "TERMINATING") && cause == None
          else (get.kind == Some(LaunchKind.Fatal) || get.kind == Some(LimitExceeded)) && cause == get.kind)
    case _ => false
  }

  /** The failure is stored next, nothing follows, and the result is the cause. */
  predicate EndsFailed(es: seq<Event>, i: nat, cause: Option<LaunchKind>, ended: Option<LaunchResult>)
    requires i < |es|
  {
    if i + 1 == |es| then ended.None?
    else |es| == i + 2 && es[i + 1].Saved? && es[i + 1].write.LaunchFailed? && ended == Some(LaunchError(cause))
  }

  function EndOf(pc: LaunchPc): Option<LaunchResult> {
    if pc.Done? then Some(pc.result) else None
  }

  lemma HopelessDue(plan: LaunchInput, es: seq<Event>, i: nat, cause: Option<LaunchKind>)
    requires i < |es| && Hopeless(es, i, cause)
    ensures Due(plan, es[..i + 1]) == Fails(cause)
  {
    assert es[..i + 1][..i] == es[..i];
    if es[i].Fetched? {
      assert forall e | e in es[..i] :: !IsRunning(e);
    }
    hide IsRunning;
  }

  /** A terminated instance, a hopeless answer of `Get`, a fatal launch answer, and a service limit without an instance
      behind it: the failure is stored, nothing is slept off or asked again, and the attempt ends with the cause. */
  lemma HopelessEnds(plan: LaunchInput, es: seq<Event>, i: nat, cause: Option<LaunchKind>)
    requires LaunchAfter(plan, es).Some? && i < |es| && Hopeless(es, i, cause)
    ensures EndsFailed(es, i, cause, EndOf(LaunchAfter(plan, es).value))
  {
    Tracked(plan, es);
    assert Due(plan, es) == CallOf(plan, LaunchAfter(plan, es).value);
    HopelessDue(plan, es, i, cause);
    hide LaunchAfter, LaunchNext, Tracks, Hopeless;
    if i + 1 == |es| {
      assert es[..i + 1] == es;
    } else {
      assert Made(plan, es, i + 1);
      assert es[..i + 2][..i + 1] == es[..i + 1];
      assert Due(plan, es[..i + 2]) == Returns(LaunchError(cause));
      assert i + 2 < |es| ==> Made(plan, es, i + 2);
      assert es[..i + 2] == es;
    }
  }
}
