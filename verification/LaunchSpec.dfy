/** What `launch.Orchestrator.Run` may do, as an automaton over events, and what follows for every event sequence. */
module LaunchSpec {
  import opened Basics
  import opened State
  import opened Events

  datatype LaunchInput =
    LaunchInput(request: Request, publicIP: bool, existing: string, timeout: int, retryMin: int, retryMax: int)

  /** A nil error, or an error in which `errors.As` finds `kind`. */
  datatype LaunchResult = Provisioned(vm: Vm) | LaunchError(kind: Option<LaunchKind>)

  /** Where the orchestrator is: about to make the call the name tells. */
  datatype LaunchPc =
    | Requesting(retry: nat)
    | Backing(retry: nat, delay: int)
    | Looking(retry: nat)
    | Accepting(retry: nat, id: string)
    | Failing(kind: Option<LaunchKind>)
    | Polling(id: string)
    | Pausing(id: string)
    | AwaitingIP(id: string, vm: Vm, retry: nat)
    | LookingUp(id: string, vm: Vm, retry: nat)
    | Finishing(id: string, vm: Vm)
    | Done(result: LaunchResult)

  const RUNNING := "RUNNING"
  const TERMINATED := "TERMINATED"
  const TERMINATING := "TERMINATING"

  predicate ValidInput(plan: LaunchInput) {
    plan.timeout > 0 && plan.retryMin > 0 && plan.retryMax >= plan.retryMin
  }

  function LaunchStart(plan: LaunchInput): LaunchPc {
    if !ValidInput(plan) then Done(LaunchError(None))
    else if plan.existing == "" then Requesting(0)
    else Polling(plan.existing)
  }

  function Capped(plan: LaunchInput, retry: nat): int {
    Delay(plan.retryMin, plan.retryMax, retry)
  }

  /** An answer that only says the deadline passed leaves open whether the instance exists. */
  function KindOf(answer: LaunchAnswer): LaunchKind {
    if answer.timedOut && answer.kind == LaunchKind.Unset then Ambiguous else answer.kind
  }

  function OnLaunch(plan: LaunchInput, retry: nat, answer: LaunchAnswer): LaunchPc {
    var kind := KindOf(answer);
    match kind
    case Accepted => if answer.id == "" then Done(LaunchError(None)) else Accepting(retry, answer.id)
    case OutOfCapacity => Done(LaunchError(Some(OutOfCapacity)))
    case LimitExceeded => Looking(retry)
    case Fatal => Failing(Some(LaunchKind.Fatal))
    case Canceled => Done(LaunchError(Some(LaunchKind.Canceled)))
    case Other(_) => Done(LaunchError(None))
    case _ =>
      var delay := Capped(plan, retry);
      if delay == plan.retryMax then Failing(Some(kind))
      else Backing(retry, if answer.retryAfter > delay then answer.retryAfter else delay)
  }

  function OnLook(retry: nat, look: LookAnswer): LaunchPc {
    match look
    case LookFailed(kind) => Done(LaunchError(kind))
    case Found(id) => Accepting(retry, id)
    case Absent => Failing(Some(LimitExceeded))
  }

  function OnGet(plan: LaunchInput, id: string, get: GetAnswer): LaunchPc {
    match get
    case GetFailed(Some(Fatal)) => Failing(Some(LaunchKind.Fatal))
    case GetFailed(Some(LimitExceeded)) => Failing(Some(LimitExceeded))
    case GetFailed(Some(Canceled)) => Done(LaunchError(Some(LaunchKind.Canceled)))
    case GetFailed(_) => Pausing(id)
    case Got(vm) =>
      if vm.state == RUNNING then
        if plan.publicIP && vm.publicIP == "" then AwaitingIP(id, vm, 0) else Finishing(id, vm)
      else if vm.state == TERMINATED || vm.state == TERMINATING then Failing(None)
      else Pausing(id)
  }

  function OnLookup(plan: LaunchInput, id: string, vm: Vm, retry: nat, get: GetAnswer): LaunchPc {
    var latest := if get.Got? then get.vm else vm;
    if get.Got? && latest.publicIP != "" then Finishing(id, latest)
    else if Capped(plan, retry) == plan.retryMax then Finishing(id, latest)
    else AwaitingIP(id, latest, retry + 1)
  }

  function LaunchNext(plan: LaunchInput, pc: LaunchPc, e: Event): Option<LaunchPc> {
    var stopped := Done(LaunchError(None));
    match pc
    case Requesting(retry) =>
      if e.Launched? && e.request == plan.request then
        Some(if e.cancelled then stopped else OnLaunch(plan, retry, e.answer))
      else None
    case Backing(retry, delay) =>
      if e.Slept? && e.delay == delay then Some(if e.ok then Requesting(retry + 1) else stopped) else None
    case Looking(retry) =>
      if e.Looked? && e.request == plan.request then
        Some(if e.cancelled then stopped else OnLook(retry, e.look))
      else None
    case Accepting(retry, id) =>
      if e.Saved? && e.write == LaunchAccepted(id) then
        Some(if !e.out.ok then stopped else if id == "" then Requesting(retry + 1) else Polling(id))
      else None
    case Failing(kind) =>
      if e.Saved? && e.write.LaunchFailed? then Some(Done(LaunchError(kind))) else None
    case Polling(id) =>
      if e.Fetched? && e.id == id then Some(if e.cancelled then stopped else OnGet(plan, id, e.get)) else None
    case Pausing(id) =>
      if e.Slept? && e.delay == plan.retryMin then Some(if e.ok then Polling(id) else stopped) else None
    case AwaitingIP(id, vm, retry) =>
      if e.Slept? && e.delay == Capped(plan, retry) then
        Some(if e.ok then LookingUp(id, vm, retry) else stopped)
      else None
    case LookingUp(id, vm, retry) =>
      if e.Fetched? && e.id == id then
        Some(if e.cancelled then stopped else OnLookup(plan, id, vm, retry, e.get))
      else None
    case Finishing(id, vm) =>
      if e.Saved? && e.write == LaunchFinished(vm) then
        Some(if e.out.ok then Done(Provisioned(vm)) else stopped)
      else None
    case Done(_) => None
  }

  /** Where a sequence of events leads from the start, if it is a behaviour of the orchestrator at all. */
  function LaunchAfter(plan: LaunchInput, es: seq<Event>): Option<LaunchPc> {
    if es == [] then Some(LaunchStart(plan))
    else
      var pc := LaunchAfter(plan, es[..|es| - 1]);
      if pc.None? then None else LaunchNext(plan, pc.value, es[|es| - 1])
  }

  lemma LaunchSnoc(plan: LaunchInput)
    ensures forall s: seq<Event>, e: Event {:trigger LaunchAfter(plan, s + [e])} ::
      LaunchAfter(plan, s + [e]) ==
        if LaunchAfter(plan, s).None? then None else LaunchNext(plan, LaunchAfter(plan, s).value, e)
  {
    forall s: seq<Event>, e: Event
      ensures LaunchAfter(plan, s + [e]) ==
        if LaunchAfter(plan, s).None? then None else LaunchNext(plan, LaunchAfter(plan, s).value, e)
    {
      assert (s + [e])[..|s + [e]| - 1] == s;
    }
  }

  // --- the store protocol ------------------------------------------------------------------------------------------

  datatype StoreCall = CallAccepted | CallFinished(vm: Vm, ok: bool) | CallFailed

  function StoreCallOf(e: Event): seq<StoreCall> {
    if !e.Saved? then []
    else match e.write
      case LaunchAccepted(_) => [CallAccepted]
      case LaunchFinished(vm) => [CallFinished(vm, e.out.ok)]
      case LaunchFailed(_) => [CallFailed]
      case _ => []
  }

  function StoreCalls(es: seq<Event>): seq<StoreCall> {
    if es == [] then [] else StoreCalls(es[..|es| - 1]) + StoreCallOf(es[|es| - 1])
  }

  /** The instance found while handling a service limit has an identifier. */
  predicate FoundNamed(e: Event) {
    e.Looked? && e.look.Found? ==> e.look.id != ""
  }

  predicate AllFoundNamed(es: seq<Event>) {
    forall e | e in es :: FoundNamed(e)
  }

  predicate UpToAccepted(calls: seq<StoreCall>) {
    calls == [] || calls == [CallAccepted]
  }

  /** `Accepted? (Finished | Failed)?` */
  predicate StorePattern(calls: seq<StoreCall>) {
    UpToAccepted(calls) ||
    (UpToAccepted(calls[..|calls| - 1]) && (calls[|calls| - 1].CallFinished? || calls[|calls| - 1].CallFailed?))
  }

  /** Some `Get` of `id` reported a running instance. */
  predicate SeenRunning(es: seq<Event>, id: string) {
    exists i :: 0 <= i < |es| && es[i].Fetched? && es[i].id == id && es[i].get.Got? && es[i].get.vm.state == RUNNING
  }

  /** The id the orchestrator follows: given, or stored as accepted. */
  predicate Followed(plan: LaunchInput, es: seq<Event>, id: string) {
    if plan.existing != "" then id == plan.existing
    else exists i :: 0 <= i < |es| && es[i].Saved? && es[i].write == LaunchAccepted(id) && es[i].out.ok
  }

  /** No instance is known yet. */
  predicate BeforeInstance(pc: LaunchPc) {
    pc.Requesting? || pc.Backing? || pc.Looking? || pc.Accepting?
  }

  predicate HasInstance(pc: LaunchPc) {
    pc.Polling? || pc.Pausing? || pc.AwaitingIP? || pc.LookingUp? || pc.Finishing?
  }

  /** The store calls made so far, by position. */
  predicate CallsAt(plan: LaunchInput, calls: seq<StoreCall>, pc: LaunchPc) {
    if BeforeInstance(pc) then calls == [] && plan.existing == "" && (pc.Accepting? ==> pc.id != "")
    else if HasInstance(pc) then calls == if plan.existing != "" then [] else [CallAccepted]
    else if pc.Failing? then UpToAccepted(calls) && pc.kind != Some(OutOfCapacity)
    else if pc.result.Provisioned? then
      |calls| > 0 && calls[|calls| - 1] == CallFinished(pc.result.vm, true) && UpToAccepted(calls[..|calls| - 1])
    else StorePattern(calls) && (pc.result.kind == Some(OutOfCapacity) ==> calls == [])
         && (calls != [] && calls[|calls| - 1].CallFinished? ==> !calls[|calls| - 1].ok)
  }

  lemma StoreCallsSnoc(es: seq<Event>, e: Event)
    ensures StoreCalls(es + [e]) == StoreCalls(es) + StoreCallOf(e)
  {
    assert (es + [e])[..|es + [e]| - 1] == es;
  }

  lemma {:induction false} CallsHold(plan: LaunchInput, es: seq<Event>)
    requires LaunchAfter(plan, es).Some? && AllFoundNamed(es)
    ensures CallsAt(plan, StoreCalls(es), LaunchAfter(plan, es).value)
  {
    if es != [] {
      var before, e := es[..|es| - 1], es[|es| - 1];
      CallsHold(plan, before);
      CallsStep(plan, StoreCalls(before), e, LaunchAfter(plan, before).value, LaunchAfter(plan, es).value);
    }
  }

  lemma CallsStep(plan: LaunchInput, calls: seq<StoreCall>, e: Event, pc: LaunchPc, pc': LaunchPc)
    requires CallsAt(plan, calls, pc) && LaunchNext(plan, pc, e) == Some(pc') && FoundNamed(e)
    ensures CallsAt(plan, calls + StoreCallOf(e), pc')
  {
    if pc.Failing? || pc.Finishing? || pc.Accepting? {
      assert (calls + StoreCallOf(e))[..|calls + StoreCallOf(e)| - 1] == calls;
    } else {
      assert calls + StoreCallOf(e) == calls;
    }
  }

  lemma EvidenceGrows(plan: LaunchInput, es: seq<Event>, id: string)
    requires es != []
    ensures SeenRunning(es[..|es| - 1], id) ==> SeenRunning(es, id)
    ensures Followed(plan, es[..|es| - 1], id) ==> Followed(plan, es, id)
  {
    var before := es[..|es| - 1];
    if SeenRunning(before, id) {
      var i :| 0 <= i < |before| && before[i].Fetched? && before[i].id == id && before[i].get.Got?
               && before[i].get.vm.state == RUNNING;
      assert es[i] == before[i];
    }
    if Followed(plan, before, id) && plan.existing == "" {
      var j :| 0 <= j < |before| && before[j].Saved? && before[j].write == LaunchAccepted(id) && before[j].out.ok;
      assert es[j] == before[j];
    }
  }

  /** How the orchestrator comes to follow an instance, and to hold a running one. */
  lemma EvidenceStep(plan: LaunchInput, pc: LaunchPc, e: Event)
    requires LaunchNext(plan, pc, e).Some?
    ensures var pc' := LaunchNext(plan, pc, e).value;
      && (HasInstance(pc') ==>
            (HasInstance(pc) && pc.id == pc'.id)
            || (pc.Accepting? && e.Saved? && e.write == LaunchAccepted(pc'.id) && e.out.ok))
      && (AfterRunning(pc') ==>
            (AfterRunning(pc) && pc.id == pc'.id)
            || (e.Fetched? && e.id == pc'.id && e.get.Got? && e.get.vm.state == RUNNING))
  {
  }

  lemma {:induction false} FollowedHolds(plan: LaunchInput, es: seq<Event>)
    requires LaunchAfter(plan, es).Some? && AllFoundNamed(es) && HasInstance(LaunchAfter(plan, es).value)
    ensures Followed(plan, es, LaunchAfter(plan, es).value.id)
  {
    if es != [] {
      var before, e := es[..|es| - 1], es[|es| - 1];
      var pc := LaunchAfter(plan, before).value;
      EvidenceStep(plan, pc, e);
      var id := LaunchAfter(plan, es).value.id;
      CallsHold(plan, before);
      if HasInstance(pc) {
        FollowedHolds(plan, before);
      }
      EvidenceGrows(plan, es, id);
      hide LaunchAfter, LaunchNext, StoreCalls;
    }
  }

  predicate AfterRunning(pc: LaunchPc) {
    pc.AwaitingIP? || pc.LookingUp? || pc.Finishing?
  }

  lemma {:induction false} SeenRunningHolds(plan: LaunchInput, es: seq<Event>)
    requires LaunchAfter(plan, es).Some? && AfterRunning(LaunchAfter(plan, es).value)
    ensures SeenRunning(es, LaunchAfter(plan, es).value.id)
  {
    var before, e := es[..|es| - 1], es[|es| - 1];
    var pc := LaunchAfter(plan, before).value;
    EvidenceStep(plan, pc, e);
    if AfterRunning(pc) {
      SeenRunningHolds(plan, before);
    }
    EvidenceGrows(plan, es, LaunchAfter(plan, es).value.id);
    hide LaunchAfter, LaunchNext;
  }

  /** For every provider, store and sleeper: store calls follow `Accepted? (Finished | Failed)?`, an out-of-capacity
      return made none, and a success means that `Finished` returned nil for the returned instance after some `Get` of
      the followed id reported a running one. */
  lemma StoreProtocol(plan: LaunchInput, es: seq<Event>)
    requires LaunchAfter(plan, es).Some? && AllFoundNamed(es)
    ensures StorePattern(StoreCalls(es))
    ensures LaunchAfter(plan, es).value == Done(LaunchError(Some(OutOfCapacity))) ==> StoreCalls(es) == []
    ensures Succeeded(LaunchAfter(plan, es).value) ==>
      && StoreCalls(es) != []
      && StoreCalls(es)[|StoreCalls(es)| - 1] == CallFinished(LaunchAfter(plan, es).value.result.vm, true)
      && exists id :: SeenRunning(es, id) && Followed(plan, es, id)
  {
    CallsHold(plan, es);
    if Succeeded(LaunchAfter(plan, es).value) {
      SuccessHasEvidence(plan, es);
    }
    hide LaunchAfter, StoreCalls, SeenRunning, Followed;
  }

  predicate Succeeded(pc: LaunchPc) {
    pc.Done? && pc.result.Provisioned?
  }

  /** A success begins with the save that stored it. */
  lemma SuccessIsStored(plan: LaunchInput, pc: LaunchPc, e: Event)
    requires LaunchNext(plan, pc, e).Some? && Succeeded(LaunchNext(plan, pc, e).value)
    ensures e.Saved? && e.out.ok && e.write == LaunchFinished(LaunchNext(plan, pc, e).value.result.vm)
  {
    hide Capped;
  }

  lemma NotAtOnce(plan: LaunchInput)
    ensures !Succeeded(LaunchStart(plan))
  {
  }

  lemma SuccessHasEvidence(plan: LaunchInput, es: seq<Event>)
    requires LaunchAfter(plan, es).Some? && AllFoundNamed(es) && Succeeded(LaunchAfter(plan, es).value)
    ensures exists id :: SeenRunning(es, id) && Followed(plan, es, id)
  {
    var before := es[..|es| - 1];
    assert LaunchAfter(plan, before).Some? && LaunchAfter(plan, before).value.Finishing?;
    hide LaunchAfter;
    SeenRunningHolds(plan, before);
    FollowedHolds(plan, before);
    EvidenceGrows(plan, es, LaunchAfter(plan, before).value.id);
  }

  // --- bounds ------------------------------------------------------------------------------------------------------

  function Launches(es: seq<Event>): nat {
    if es == [] then 0 else Launches(es[..|es| - 1]) + (if es[|es| - 1].Launched? then 1 else 0)
  }

  /** Sleep between launch calls. */
  function Spent(plan: LaunchInput, es: seq<Event>): int {
    if es == [] then 0
    else
      var before, e := es[..|es| - 1], es[|es| - 1];
      var pc := LaunchAfter(plan, before);
      Spent(plan, before) + (if pc.Some? && pc.value.Backing? && e.Slept? then e.delay else 0)
  }

  /** Lookups of the public address. */
  function Lookups(plan: LaunchInput, es: seq<Event>): nat {
    if es == [] then 0
    else
      var before, e := es[..|es| - 1], es[|es| - 1];
      var pc := LaunchAfter(plan, before);
      Lookups(plan, before) + (if pc.Some? && pc.value.LookingUp? && e.Fetched? then 1 else 0)
  }

  predicate NoGuidance(e: Event) {
    e.Launched? ==> e.answer.retryAfter <= 0
  }

  predicate NeverGuided(es: seq<Event>) {
    forall e | e in es :: NoGuidance(e)
  }

  predicate LaunchBound(plan: LaunchInput, launches: nat, pc: LaunchPc)
    requires ValidInput(plan)
  {
    var k := Doublings(plan.retryMin, plan.retryMax);
    match pc
    case Requesting(n) => launches == n <= k
    case Backing(n, _) => launches == n + 1 <= k
    case _ => launches <= k + 1
  }

  lemma {:induction false} LaunchBoundHolds(plan: LaunchInput, es: seq<Event>)
    requires ValidInput(plan) && LaunchAfter(plan, es).Some? && AllFoundNamed(es)
    ensures LaunchBound(plan, Launches(es), LaunchAfter(plan, es).value)
  {
    if es != [] {
      var before, e := es[..|es| - 1], es[|es| - 1];
      LaunchBoundHolds(plan, before);
      CallsHold(plan, before);
      var pc := LaunchAfter(plan, before).value;
      if pc.Requesting? {
        DelayShape(plan.retryMin, plan.retryMax, pc.retry, pc.retry);
      }
    }
  }

  predicate SpentBound(plan: LaunchInput, spent: int, pc: LaunchPc)
    requires ValidInput(plan)
  {
    match pc
    case Requesting(n) => spent == plan.retryMin * (Pow2(n) - 1)
    case Backing(n, delay) => spent == plan.retryMin * (Pow2(n) - 1) && delay == plan.retryMin * Pow2(n) < plan.retryMax
    case _ => spent < 2 * plan.retryMax
  }

  lemma SpentStaysBelow(plan: LaunchInput, n: nat)
    requires ValidInput(plan) && n <= Doublings(plan.retryMin, plan.retryMax)
    ensures plan.retryMin * (Pow2(n) - 1) < 2 * plan.retryMax
  {
    if n > 0 {
      DoublingsIsLeast(plan.retryMin, plan.retryMax, n - 1);
      Distribute(plan.retryMin, Pow2(n - 1));
    }
  }

  lemma Distribute(m: int, p: int)
    ensures m * (2 * p - 1) == 2 * (m * p) - m
  {
  }

  lemma BackingDelay(plan: LaunchInput, n: nat)
    requires ValidInput(plan) && Capped(plan, n) != plan.retryMax
    ensures Capped(plan, n) == plan.retryMin * Pow2(n) < plan.retryMax && Capped(plan, n) > 0
    ensures plan.retryMin * (Pow2(n) - 1) + plan.retryMin * Pow2(n) == plan.retryMin * (Pow2(n + 1) - 1)
  {
    DelayShape(plan.retryMin, plan.retryMax, n, n);
  }

  lemma {:induction false} SpentBoundHolds(plan: LaunchInput, es: seq<Event>)
    requires ValidInput(plan) && LaunchAfter(plan, es).Some? && AllFoundNamed(es) && NeverGuided(es)
    ensures SpentBound(plan, Spent(plan, es), LaunchAfter(plan, es).value)
  {
    if es != [] {
      var before, e := es[..|es| - 1], es[|es| - 1];
      SpentBoundHolds(plan, before);
      CallsHold(plan, before);
      LaunchBoundHolds(plan, before);
      assert NoGuidance(e);
      var pc := LaunchAfter(plan, before).value;
      assert LaunchNext(plan, pc, e) == Some(LaunchAfter(plan, es).value);
      assert pc.Accepting? ==> pc.id != "";
      assert Spent(plan, es) == Spent(plan, before) + (if pc.Backing? && e.Slept? then e.delay else 0);
      hide LaunchAfter, Spent, LaunchNext, CallsAt, StoreCalls;
      SpentStep(plan, Spent(plan, before), Launches(before), pc, e);
    }
  }

  lemma SpentStep(plan: LaunchInput, spent: int, launches: nat, pc: LaunchPc, e: Event)
    requires ValidInput(plan) && SpentBound(plan, spent, pc) && LaunchBound(plan, launches, pc)
    requires LaunchNext(plan, pc, e).Some? && NoGuidance(e) && (pc.Accepting? ==> pc.id != "")
    ensures SpentBound(plan, spent + (if pc.Backing? && e.Slept? then e.delay else 0), LaunchNext(plan, pc, e).value)
  {
    if pc.Requesting? {
      SpentStaysBelow(plan, pc.retry);
      if Capped(plan, pc.retry) != plan.retryMax { BackingDelay(plan, pc.retry); }
    } else if pc.Backing? {
      SpentStaysBelow(plan, pc.retry + 1);
      DelayShape(plan.retryMin, plan.retryMax, pc.retry, pc.retry);
      BackingDelay(plan, pc.retry);
    }
    hide Delay, Doublings, Pow2;
  }

  predicate LookupBound(plan: LaunchInput, lookups: nat, pc: LaunchPc)
    requires ValidInput(plan)
  {
    var k := Doublings(plan.retryMin, plan.retryMax);
    match pc
    case AwaitingIP(_, _, n) => lookups == n <= k
    case LookingUp(_, _, n) => lookups == n <= k
    case Finishing(_, _) => lookups <= k + 1
    case Done(_) => lookups <= k + 1
    case _ => lookups == 0
  }

  lemma {:induction false} LookupBoundHolds(plan: LaunchInput, es: seq<Event>)
    requires ValidInput(plan) && LaunchAfter(plan, es).Some?
    ensures LookupBound(plan, Lookups(plan, es), LaunchAfter(plan, es).value)
  {
    if es != [] {
      var before, e := es[..|es| - 1], es[|es| - 1];
      LookupBoundHolds(plan, before);
      var pc := LaunchAfter(plan, before).value;
      if pc.LookingUp? {
        DelayShape(plan.retryMin, plan.retryMax, pc.retry, pc.retry);
      }
    }
  }

  /** If the minimum delay doubled `k` times reaches the maximum then, whatever the provider answers, there are at most
      `k + 1` launch calls. */
  lemma LaunchesAreBounded(plan: LaunchInput, es: seq<Event>, k: nat)
    requires ValidInput(plan) && LaunchAfter(plan, es).Some? && AllFoundNamed(es)
    requires plan.retryMin * Pow2(k) >= plan.retryMax
    ensures Launches(es) <= k + 1
  {
    DoublingsIsLeast(plan.retryMin, plan.retryMax, k);
    hide LaunchAfter, Launches, Doublings, Pow2, AllFoundNamed;
    LaunchBoundHolds(plan, es);
  }

  /** Likewise there are at most `k + 1` lookups of the public address. */
  lemma LookupsAreBounded(plan: LaunchInput, es: seq<Event>, k: nat)
    requires ValidInput(plan) && LaunchAfter(plan, es).Some?
    requires plan.retryMin * Pow2(k) >= plan.retryMax
    ensures Lookups(plan, es) <= k + 1
  {
    DoublingsIsLeast(plan.retryMin, plan.retryMax, k);
    hide LaunchAfter, Lookups, Doublings, Pow2;
    LookupBoundHolds(plan, es);
  }

  /** Without provider guidance less than twice the maximum delay is slept between launch calls. */
  lemma SleepIsBounded(plan: LaunchInput, es: seq<Event>)
    requires ValidInput(plan) && LaunchAfter(plan, es).Some? && AllFoundNamed(es) && NeverGuided(es)
    ensures Spent(plan, es) < 2 * plan.retryMax
  {
    hide LaunchAfter, Launches, Spent, Doublings, Pow2, AllFoundNamed, NeverGuided;
    LaunchBoundHolds(plan, es);
    SpentBoundHolds(plan, es);
    var pc := LaunchAfter(plan, es).value;
    if pc.Requesting? || pc.Backing? {
      SpentStaysBelow(plan, pc.retry);
    }
  }

  // --- is the finished instance running? ---------------------------------------------------------------------------

  /** What the orchestrator does in some environment that starts with the record `initial`. */
  predicate Happens(plan: LaunchInput, initial: Option<Record>, es: seq<Event>) {
    LaunchAfter(plan, es).Some? && Faithful(plan.request.key, initial, es) && Timed(es)
  }

  predicate CallsFinished(es: seq<Event>, vm: Vm) {
    CallFinished(vm, true) in StoreCalls(es) || CallFinished(vm, false) in StoreCalls(es)
  }

  /** In every environment, every call of `Finished` is made with a running instance. */
  ghost predicate FinishesOnlyRunning(plan: LaunchInput) {
    forall initial, es, vm | Happens(plan, initial, es) && CallsFinished(es, vm) :: vm.state == RUNNING
  }

  predicate RunningInvariant(es: seq<Event>, pc: LaunchPc) {
    && (forall c | c in StoreCalls(es) && c.CallFinished? :: c.vm.state == RUNNING)
    && (pc.Finishing? ==> pc.vm.state == RUNNING)
    && !pc.AwaitingIP? && !pc.LookingUp?
  }

  lemma {:induction false} RunningInvariantHolds(plan: LaunchInput, es: seq<Event>)
    requires !plan.publicIP && LaunchAfter(plan, es).Some?
    ensures RunningInvariant(es, LaunchAfter(plan, es).value)
  {
    if es != [] {
      RunningInvariantHolds(plan, es[..|es| - 1]);
    }
  }

  lemma {:induction false} InvalidDoesNothing(plan: LaunchInput, es: seq<Event>)
    requires !ValidInput(plan) && LaunchAfter(plan, es).Some?
    ensures es == []
  {
    if es != [] {
      InvalidDoesNothing(plan, es[..|es| - 1]);
    }
  }

  predicate FinishesNothing(es: seq<Event>) {
    forall c | c in StoreCalls(es) :: !c.CallFinished?
  }

  /** An instance that cannot be stored as accepted is never followed. */
  lemma {:induction false} UnusableFinishesNothing(plan: LaunchInput, initial: Option<Record>, es: seq<Event>)
    requires plan.existing == "" && !Usable(plan.request.key) && Happens(plan, initial, es)
    ensures !HasInstance(LaunchAfter(plan, es).value) && FinishesNothing(es)
  {
    if es != [] {
      var before, e := es[..|es| - 1], es[|es| - 1];
      UnusableFinishesNothing(plan, initial, before);
      if e.Saved? {
        NothingAccepted(plan.request.key, e);
      }
    }
  }

  lemma NothingAccepted(key: Key, e: Event)
    requires !Usable(key) && e.Saved? && Feasible(key, e.write, e.before, e.now, e.out)
    ensures !e.out.ok
  {
    hide Change, Blank;
  }

  /** An instance without an address that runs when polled, and is terminated when its address is looked up. The save of
      the result meets the record `r`. */
  function TerminatedBehind(plan: LaunchInput, id: string, r: Option<Record>): seq<Event>
    requires ValidInput(plan)
  {
    DelayShape(plan.retryMin, plan.retryMax, 0, 0);
    [Fetched(id, Got(Vm(id, RUNNING, "")), false),
     Slept(Capped(plan, 0), true, Capped(plan, 0)),
     Fetched(id, Got(TerminatedVm(id)), false),
     Saved(LaunchFinished(TerminatedVm(id)), r, 1, if r.Some? then Outcome(true, true) else Outcome(false, false))]
  }

  function TerminatedVm(id: string): Vm {
    Vm(id, TERMINATED, "203.0.113.1")
  }

  lemma TerminatedSteps(plan: LaunchInput, id: string, r: Option<Record>)
    requires plan.publicIP && ValidInput(plan)
    ensures var more := TerminatedBehind(plan, id, r);
      && LaunchNext(plan, Polling(id), more[0]) == Some(AwaitingIP(id, Vm(id, RUNNING, ""), 0))
      && LaunchNext(plan, AwaitingIP(id, Vm(id, RUNNING, ""), 0), more[1])
         == Some(LookingUp(id, Vm(id, RUNNING, ""), 0))
      && LaunchNext(plan, LookingUp(id, Vm(id, RUNNING, ""), 0), more[2]) == Some(Finishing(id, TerminatedVm(id)))
      && LaunchNext(plan, Finishing(id, TerminatedVm(id)), more[3]).Some?
      && StoreCallOf(more[3]) == [CallFinished(TerminatedVm(id), r.Some?)]
  {
    hide Capped;
  }

  /** An environment in which the orchestrator has come to poll `id` with no time passed. */
  predicate Polls(plan: LaunchInput, initial: Option<Record>, es: seq<Event>, id: string, r: Option<Record>) {
    && Happens(plan, initial, es) && LaunchAfter(plan, es) == Some(Polling(id))
    && Replay(plan.request.key, initial, es) == r && Latest(es) == 0
    && (r.Some? ==> Wellformed(plan.request.key, r.value))
  }

  lemma HappensNext(plan: LaunchInput, initial: Option<Record>, es: seq<Event>, e: Event)
    requires Happens(plan, initial, es) && LaunchNext(plan, LaunchAfter(plan, es).value, e).Some?
    requires Reports(plan.request.key, Replay(plan.request.key, initial, es), e) && OnTime(Latest(es), e)
    ensures Happens(plan, initial, es + [e])
    ensures LaunchAfter(plan, es + [e]) == LaunchNext(plan, LaunchAfter(plan, es).value, e)
    ensures Replay(plan.request.key, initial, es + [e])
         == Effect(plan.request.key, Replay(plan.request.key, initial, es), e)
    ensures Latest(es + [e]) == LatestAfter(Latest(es), e)
    ensures StoreCalls(es + [e]) == StoreCalls(es) + StoreCallOf(e)
  {
    LaunchSnoc(plan);
    ReplaySnoc(plan.request.key, initial, es, e);
    TimedSnoc(es, e);
    StoreCallsSnoc(es, e);
    hide LaunchAfter, LaunchNext, Faithful, Replay, Timed, Latest, StoreCalls, Reports, OnTime, LatestAfter, Effect;
  }

  /** From there `Finished` is called with a terminated instance; and if there is a record, it is stored as running. */
  lemma TerminatedIsFinished(plan: LaunchInput, initial: Option<Record>, start: seq<Event>, id: string,
                             r: Option<Record>)
    returns (es: seq<Event>)
    requires plan.publicIP && ValidInput(plan) && Polls(plan, initial, start, id, r)
    ensures Happens(plan, initial, es) && CallsFinished(es, TerminatedVm(id))
    ensures r.Some? ==>
      && LaunchAfter(plan, es) == Some(Done(Provisioned(TerminatedVm(id))))
      && Replay(plan.request.key, initial, es).Some?
      && Replay(plan.request.key, initial, es).value.phase == Running
      && Replay(plan.request.key, initial, es).value.lastResult == TERMINATED
  {
    var more := TerminatedBehind(plan, id, r);
    TerminatedSteps(plan, id, r);
    TerminatedReports(plan, id, r);
    var key := plan.request.key;
    hide LaunchAfter, LaunchNext, StoreCalls, StoreCallOf, TerminatedBehind, Faithful, Replay, Timed, Latest;
    hide Capped, Reports, After, ValidInput;
    es := start;
    HappensNext(plan, initial, es, more[0]);
    es := es + [more[0]];
    HappensNext(plan, initial, es, more[1]);
    es := es + [more[1]];
    HappensNext(plan, initial, es, more[2]);
    es := es + [more[2]];
    HappensNext(plan, initial, es, more[3]);
    es := es + [more[3]];
    assert CallFinished(TerminatedVm(id), r.Some?) in StoreCalls(es);
  }

  lemma TerminatedReports(plan: LaunchInput, id: string, r: Option<Record>)
    requires ValidInput(plan) && (r.Some? ==> Wellformed(plan.request.key, r.value))
    ensures var more := TerminatedBehind(plan, id, r); var key := plan.request.key;
      && Reports(key, r, more[0]) && Reports(key, r, more[1]) && Reports(key, r, more[2]) && Reports(key, r, more[3])
      && OnTime(0, more[0]) && OnTime(0, more[1]) && LatestAfter(0, more[1]) == Capped(plan, 0)
      && Effect(key, r, more[0]) == r && Effect(key, r, more[1]) == r && Effect(key, r, more[2]) == r
      && (r.Some? ==> Effect(key, r, more[3]).Some? && Effect(key, r, more[3]).value.phase == Running
                      && Effect(key, r, more[3]).value.lastResult == TERMINATED)
      && (r.Some? ==>
            LaunchNext(plan, Finishing(id, TerminatedVm(id)), more[3]) == Some(Done(Provisioned(TerminatedVm(id)))))
  {
    hide Capped, Blank;
  }

  /** Some environment in which an instance is polled. */
  lemma ReachPolling(plan: LaunchInput) returns (initial: Option<Record>, es: seq<Event>, id: string, r: Option<Record>)
    requires ValidInput(plan) && (plan.existing != "" || Usable(plan.request.key))
    ensures Polls(plan, initial, es, id, r) && (Usable(plan.request.key) ==> r.Some?)
  {
    var key := plan.request.key;
    var record := Empty(key).(schema := SCHEMA_VERSION, updatedAt := 1);
    initial := if Usable(key) then Some(record) else None;
    es, id, r := [], plan.existing, initial;
    assert Happens(plan, initial, []);
    if plan.existing == "" {
      id := "i";
      var launched := Launched(plan.request, LaunchAnswer(Accepted, id, 0, false), false);
      var accepted := Saved(LaunchAccepted(id), initial, 1, Outcome(true, true));
      AtStart(plan, initial);
      AcceptSteps(plan, record, launched, accepted);
      hide LaunchAfter, LaunchNext, Faithful, Replay, Timed, Latest, Reports, After, Usable, Wellformed, Empty;
      HappensNext(plan, initial, es, launched);
      es := es + [launched];
      HappensNext(plan, initial, es, accepted);
      es := es + [accepted];
      r := Effect(key, initial, accepted);
    }
  }

  lemma AtStart(plan: LaunchInput, initial: Option<Record>)
    ensures LaunchAfter(plan, []) == Some(LaunchStart(plan)) && Replay(plan.request.key, initial, []) == initial
    ensures Latest([]) == 0
  {
  }

  lemma AcceptSteps(plan: LaunchInput, record: Record, launched: Event, accepted: Event)
    requires ValidInput(plan) && plan.existing == "" && Usable(plan.request.key)
    requires record == Empty(plan.request.key).(schema := SCHEMA_VERSION, updatedAt := 1)
    requires launched == Launched(plan.request, LaunchAnswer(Accepted, "i", 0, false), false)
    requires accepted == Saved(LaunchAccepted("i"), Some(record), 1, Outcome(true, true))
    ensures LaunchNext(plan, Requesting(0), launched) == Some(Accepting(0, "i"))
    ensures LaunchNext(plan, Accepting(0, "i"), accepted) == Some(Polling("i"))
    ensures Reports(plan.request.key, Some(record), launched)
    ensures Effect(plan.request.key, Some(record), launched) == Some(record)
    ensures Reports(plan.request.key, Some(record), accepted)
    ensures var r := Effect(plan.request.key, Some(record), accepted); r.Some? && Wellformed(plan.request.key, r.value)
  {
  }

  /** `Finished` is reserved for running instances, in every environment, exactly when no public address is awaited, the
      configuration is refused, or no instance can ever be stored: the address loop replaces the running instance by
      whatever its lookups return. */
  lemma FinishesOnlyRunningExactly(plan: LaunchInput)
    ensures FinishesOnlyRunning(plan) <==>
      !plan.publicIP || !ValidInput(plan) || (plan.existing == "" && !Usable(plan.request.key))
  {
    if plan.publicIP && ValidInput(plan) && (plan.existing != "" || Usable(plan.request.key)) {
      var initial, start, id, r := ReachPolling(plan);
      var es := TerminatedIsFinished(plan, initial, start, id, r);
      assert RUNNING[0] != TERMINATED[0];
      hide Happens, CallsFinished;
      assert Happens(plan, initial, es) && CallsFinished(es, TerminatedVm(id));
    } else {
      forall initial, es, vm | Happens(plan, initial, es) && CallsFinished(es, vm)
        ensures vm.state == RUNNING
      {
        if !plan.publicIP {
          RunningInvariantHolds(plan, es);
        } else if !ValidInput(plan) {
          InvalidDoesNothing(plan, es);
        } else {
          UnusableFinishesNothing(plan, initial, es);
        }
      }
    }
  }
}
