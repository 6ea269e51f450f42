/** What `capacity.Watcher.Watch` may do, as an automaton over events, and what follows for every event sequence. */
module WatchSpec {
  import opened Basics
  import opened State
  import opened Events

  datatype WatchInput = WatchInput(domains: seq<string>, once: bool, resume: Progress, complete: bool,
                                   timeout: int, initial: int, maximum: int, jitter: real)

  datatype WatchResult = Placement(kind: ProbeKind, domain: string) | WatchError(kind: ProbeKind)

  /** What follows a save. */
  datatype Then = Return(result: WatchResult) | Rest(delay: nat)

  /** Where the watcher is: about to make the call the name tells. */
  datatype WatchPc =
    | Waking(st: Progress)
    | Measuring(st: Progress)
    | Dozing(st: Progress, wait: int)
    | Probing(st: Progress)
    | Drawing(st: Progress, retryAfter: int)
    | Stamping(st: Progress, delay: nat)
    | Storing(st: Progress, next: Then)
    | Resting(st: Progress, delay: nat)
    | Watched(result: WatchResult)

  /** `Watcher.validate` */
  predicate ValidWatch(plan: WatchInput) {
    && plan.complete && plan.domains != []
    && plan.timeout > 0 && plan.initial > 0 && plan.maximum >= plan.initial && 0.0 <= plan.jitter <= 1.0
  }

  function StartDomain(plan: WatchInput): (n: nat)
    ensures plan.domains != [] ==> n < |plan.domains|
  {
    if 0 <= plan.resume.nextAD < |plan.domains| then plan.resume.nextAD else 0
  }

  function WatchStart(plan: WatchInput): WatchPc {
    var st := plan.resume.(nextAD := StartDomain(plan));
    if !ValidWatch(plan) then Watched(WatchError(ProbeKind.Fatal))
    else if !plan.once && st.nextAttempt != 0 then Waking(st)
    else Probing(st)
  }

  /** The kind a probe counts as once deadline and error are taken into account. */
  function Effective(probe: ProbeAnswer): ProbeKind {
    if probe.timedOut || (probe.failed && probe.kind == ProbeKind.Unset) then ProbeKind.Transient else probe.kind
  }

  function OnMiss(plan: WatchInput, st: Progress, kind: ProbeKind, domain: string, retryAfter: int): WatchPc
    requires plan.domains != []
  {
    var next := st.(lastAD := domain, status := kind, nextAD := (st.nextAD + 1) % |plan.domains|);
    if plan.once then
      if next.nextAD == StartDomain(plan) then Storing(next.(nextAttempt := 0), Return(Placement(Unavailable, "")))
      else Probing(next)
    else if next.nextAD != 0 && retryAfter <= 0 then Probing(next)
    else Drawing(next.(retryCount := next.retryCount + 1), retryAfter)
  }

  function OnProbe(plan: WatchInput, st: Progress, domain: string, probe: ProbeAnswer): WatchPc
    requires plan.domains != []
  {
    var kind := Effective(probe);
    var settled := st.(lastAD := domain, status := kind, nextAttempt := 0);
    match kind
    case Available => Storing(settled, Return(Placement(kind, domain)))
    case ProbeUnavailable => Storing(settled, Return(Placement(kind, domain)))
    case Fatal => Storing(settled, Return(WatchError(ProbeKind.Fatal)))
    case Canceled => Watched(WatchError(ProbeKind.Canceled))
    case Unavailable => OnMiss(plan, st, kind, domain, probe.retryAfter)
    case Throttled => OnMiss(plan, st, kind, domain, probe.retryAfter)
    case Transient => OnMiss(plan, st, kind, domain, probe.retryAfter)
    case _ => Watched(WatchError(ProbeKind.Fatal))
  }

  function DelayFor(plan: WatchInput, st: Progress, retryAfter: int, draw: real): int {
    var delay := Jittered(WatchBase(plan.initial, plan.maximum, st.retryCount), plan.maximum, plan.jitter, draw);
    if retryAfter > delay then retryAfter else delay
  }

  function WatchNext(plan: WatchInput, pc: WatchPc, e: Event): Option<WatchPc> {
    var canceled := Watched(WatchError(ProbeKind.Canceled));
    match pc
    case Waking(st) =>
      if e.Clock? then Some(if st.nextAttempt > e.now then Measuring(st) else Probing(st)) else None
    case Measuring(st) =>
      if e.Clock? then Some(Dozing(st, st.nextAttempt - e.now)) else None
    case Dozing(st, wait) =>
      if e.Slept? && e.delay == wait then Some(if e.ok then Probing(st) else canceled) else None
    case Probing(st) =>
      if e.Probed? && 0 <= st.nextAD < |plan.domains| && e.domain == plan.domains[st.nextAD] then
        Some(if e.cancelled then canceled else OnProbe(plan, st, e.domain, e.probe))
      else None
    case Drawing(st, retryAfter) =>
      if e.Jitter? && 0.0 <= e.draw < 1.0 && DelayFor(plan, st, retryAfter, e.draw) >= 0 then
        Some(Stamping(st, DelayFor(plan, st, retryAfter, e.draw)))
      else None
    case Stamping(st, delay) =>
      if e.Clock? then Some(Storing(st.(nextAttempt := e.now + delay), Rest(delay))) else None
    case Storing(st, next) =>
      if e.Saved? && e.write == Progressed(st) && Possible(e.out) then
        Some(if !e.out.ok then Watched(WatchError(ProbeKind.Fatal))
             else match next
               case Return(result) => Watched(result)
               case Rest(delay) => Resting(st, delay))
      else None
    case Resting(st, delay) =>
      if e.Slept? && e.delay == delay then Some(if e.ok then Probing(st) else canceled) else None
    case Watched(_) => None
  }

  function WatchFrom(plan: WatchInput, start: WatchPc, es: seq<Event>): Option<WatchPc> {
    if es == [] then Some(start)
    else
      var pc := WatchFrom(plan, start, es[..|es| - 1]);
      if pc.None? then None else WatchNext(plan, pc.value, es[|es| - 1])
  }

  function WatchAfter(plan: WatchInput, es: seq<Event>): Option<WatchPc> {
    WatchFrom(plan, WatchStart(plan), es)
  }

  lemma WatchSnoc(plan: WatchInput)
    ensures forall s: seq<Event>, e: Event {:trigger WatchFrom(plan, WatchStart(plan), s + [e])} ::
      WatchFrom(plan, WatchStart(plan), s + [e]) ==
        if WatchAfter(plan, s).None? then None else WatchNext(plan, WatchAfter(plan, s).value, e)
  {
    forall s: seq<Event>, e: Event
      ensures WatchFrom(plan, WatchStart(plan), s + [e]) ==
        if WatchAfter(plan, s).None? then None else WatchNext(plan, WatchAfter(plan, s).value, e)
    {
      assert (s + [e])[..|s + [e]| - 1] == s;
    }
  }

  // --- rotation ----------------------------------------------------------------------------------------------------

  /** The probed domains in order. */
  function Probes(es: seq<Event>): seq<string> {
    if es == [] then []
    else Probes(es[..|es| - 1]) + (if es[|es| - 1].Probed? then [es[|es| - 1].domain] else [])
  }

  /** The domain of the `k`-th probe. */
  function TurnOf(plan: WatchInput, k: nat): (i: nat)
    requires plan.domains != []
    ensures i < |plan.domains|
  {
    (StartDomain(plan) + k) % |plan.domains|
  }

  /** The position is one from which probing goes on. */
  predicate Continues(pc: WatchPc) {
    !pc.Watched? && (pc.Storing? ==> pc.next.Rest?)
  }

  /** A probe, and nothing else, moves the cursor on. */
  lemma CursorStep(plan: WatchInput, pc: WatchPc, e: Event)
    requires WatchNext(plan, pc, e).Some? && Continues(WatchNext(plan, pc, e).value)
    ensures Continues(pc)
    ensures WatchNext(plan, pc, e).value.st.nextAD
         == if e.Probed? then (pc.st.nextAD + 1) % |plan.domains| else pc.st.nextAD
  {
    hide DelayFor, Effective;
  }

  lemma {:induction false} CursorHolds(plan: WatchInput, es: seq<Event>)
    requires ValidWatch(plan) && WatchAfter(plan, es).Some?
    ensures Continues(WatchAfter(plan, es).value) ==>
      WatchAfter(plan, es).value.st.nextAD == TurnOf(plan, |Probes(es)|)
  {
    hide WatchNext;
    if es == [] {
      ModUnique(StartDomain(plan), |plan.domains|, 0, StartDomain(plan));
    } else if Continues(WatchAfter(plan, es).value) {
      var before, e := es[..|es| - 1], es[|es| - 1];
      CursorStep(plan, WatchAfter(plan, before).value, e);
      CursorHolds(plan, before);
      ModSucc(StartDomain(plan) + |Probes(before)|, |plan.domains|);
    }
  }

  /** For every client: the `k`-th probe goes to domain `(start + k) mod n`. */
  lemma {:induction false} RoundRobin(plan: WatchInput, es: seq<Event>, k: nat)
    requires ValidWatch(plan) && WatchAfter(plan, es).Some? && k < |Probes(es)|
    ensures Probes(es)[k] == plan.domains[TurnOf(plan, k)]
  {
    var before, e := es[..|es| - 1], es[|es| - 1];
    if k < |Probes(before)| {
      RoundRobin(plan, before, k);
    } else {
      CursorHolds(plan, before);
    }
  }

  /** Any `n` consecutive turns reach every domain, each at exactly one turn. */
  lemma TurnsCover(plan: WatchInput, from: nat, domain: nat) returns (k: nat)
    requires plan.domains != [] && domain < |plan.domains|
    ensures from <= k < from + |plan.domains| && TurnOf(plan, k) == domain
    ensures forall j: nat | from <= j < from + |plan.domains| && TurnOf(plan, j) == domain :: j == k
  {
    var n := |plan.domains|;
    var x := StartDomain(plan) + from;
    var gap := if domain >= x % n then domain - x % n else domain - x % n + n;
    k := from + gap;
    ModUnique(x + gap, n, if domain >= x % n then x / n else x / n + 1, domain);
    forall j: nat | from <= j < from + n && TurnOf(plan, j) == domain
      ensures j == k
    {
      SameResidue(StartDomain(plan) + j, StartDomain(plan) + k, n);
    }
  }

  lemma SameResidue(x: int, y: int, n: nat)
    requires n > 0 && x % n == y % n && 0 - n < x - y < n
    ensures x == y
  {
    var d := x / n - y / n;
    assert x == (x / n) * n + x % n && y == (y / n) * n + y % n;
    assert x - y == d * n by { assert d * n == (x / n) * n - (y / n) * n; }
    MultipleGrows(d, n);
  }

  /** In any behaviour, every `n` consecutive probes cover all domains. */
  lemma WindowCovers(plan: WatchInput, es: seq<Event>, from: nat, domain: nat)
    requires ValidWatch(plan) && WatchAfter(plan, es).Some?
    requires from + |plan.domains| <= |Probes(es)| && domain < |plan.domains|
    ensures plan.domains[domain] in Probes(es)[from..from + |plan.domains|]
  {
    var k := TurnsCover(plan, from, domain);
    RoundRobin(plan, es, k);
    assert Probes(es)[from..from + |plan.domains|][k - from] == plan.domains[domain];
  }

  // --- sleeps ------------------------------------------------------------------------------------------------------

  /** Probes since the last sleep, or since the start. */
  function SinceSleep(es: seq<Event>): nat {
    if es == [] then 0
    else if es[|es| - 1].Slept? then 0
    else SinceSleep(es[..|es| - 1]) + (if es[|es| - 1].Probed? then 1 else 0)
  }

  /** Backoff sleeps, the initial wait for a persisted deadline not counted. */
  function Rests(plan: WatchInput, es: seq<Event>): nat {
    if es == [] then 0
    else
      var before, e := es[..|es| - 1], es[|es| - 1];
      var pc := WatchAfter(plan, before);
      Rests(plan, before) + (if pc.Some? && pc.value.Resting? && e.Slept? then 1 else 0)
  }

  /** `RetryAfter` of the last probe. */
  function Guidance(es: seq<Event>): int {
    if es == [] then 0
    else if es[|es| - 1].Probed? then es[|es| - 1].probe.retryAfter
    else Guidance(es[..|es| - 1])
  }

  /** A backoff delay lies in the jitter band of its retry and below the maximum, unless the provider asked for more. */
  predicate InBand(plan: WatchInput, retry: nat, delay: int, guidance: int) {
    && Scaled(WatchBase(plan.initial, plan.maximum, retry), 1.0 - plan.jitter) <= delay && guidance <= delay
    && (delay == guidance ||
        (delay <= plan.maximum
         && delay <= Scaled(WatchBase(plan.initial, plan.maximum, retry), 1.0 + plan.jitter)))
  }

  lemma DelayInBand(plan: WatchInput, st: Progress, retryAfter: int, draw: real)
    requires ValidWatch(plan) && 0.0 <= draw < 1.0
    ensures InBand(plan, st.retryCount, DelayFor(plan, st, retryAfter, draw), retryAfter)
  {
    var r := if st.retryCount == 0 then 0 else st.retryCount - 1;
    DelayShape(plan.initial, plan.maximum, r, r);
    JitterBand(WatchBase(plan.initial, plan.maximum, st.retryCount), plan.maximum, plan.jitter, draw);
    hide Scaled, Jittered, WatchBase;
  }

  lemma NotNegative(plan: WatchInput, retry: nat, draw: real)
    requires ValidWatch(plan) && 0.0 <= draw < 1.0
    ensures Jittered(WatchBase(plan.initial, plan.maximum, retry), plan.maximum, plan.jitter, draw) >= 0
  {
    var r := if retry == 0 then 0 else retry - 1;
    DelayShape(plan.initial, plan.maximum, r, r);
    var base := WatchBase(plan.initial, plan.maximum, retry);
    JitterBand(base, plan.maximum, plan.jitter, draw);
    ScaledMonotone(base, 0.0, 1.0 - plan.jitter);
    ScaledByUnit(base);
    hide Scaled, Jittered;
  }

  predicate RestInvariant(plan: WatchInput, pc: WatchPc, since: nat, rests: nat, guidance: int) {
    var n := |plan.domains|;
    var base := plan.resume.retryCount;
    match pc
    case Probing(st) => 0 <= since <= st.nextAD < n && st.retryCount == base + rests
    case Drawing(st, retryAfter) => since <= n && st.retryCount == base + rests + 1 && retryAfter == guidance
    case Stamping(st, delay) =>
      since <= n && st.retryCount == base + rests + 1 && InBand(plan, st.retryCount, delay, guidance)
    case Storing(st, Rest(delay)) =>
      since <= n && st.retryCount == base + rests + 1 && InBand(plan, st.retryCount, delay, guidance)
    case Resting(st, delay) =>
      since <= n && st.retryCount == base + rests + 1 && InBand(plan, st.retryCount, delay, guidance)
    case Watched(_) => since <= n
    case Storing(_, Return(_)) => since <= n
    case _ => since == 0 && rests == 0 && pc.st.retryCount == base
  }

  lemma {:induction false} RestInvariantHolds(plan: WatchInput, es: seq<Event>)
    requires ValidWatch(plan) && !plan.once && WatchAfter(plan, es).Some?
    ensures RestInvariant(plan, WatchAfter(plan, es).value, SinceSleep(es), Rests(plan, es), Guidance(es))
  {
    if es != [] {
      RestInvariantHolds(plan, es[..|es| - 1]);
      CursorHolds(plan, es[..|es| - 1]);
      CursorHolds(plan, es);
      var pc := WatchAfter(plan, es[..|es| - 1]).value;
      if pc.Probing? {
        NextTurn(pc.st.nextAD, |plan.domains|);
      } else if pc.Drawing? {
        DelayInBand(plan, pc.st, pc.retryAfter, es[|es| - 1].draw);
      }
      hide InBand, DelayFor;
    }
  }

  lemma NextTurn(i: int, n: nat)
    requires 0 <= i < n
    ensures (i + 1) % n == if i + 1 == n then 0 else i + 1
  {
    if i + 1 == n {
      ModUnique(i + 1, n, 1, 0);
    } else {
      ModUnique(i + 1, n, 0, i + 1);
    }
  }

  /** Outside one-shot mode, for every client: at most `n` probes lie between two sleeps; a backoff sleep is in the
      band of its retry and at least what the last probe asked for; and when the watcher probes again, the retry count
      has risen by one per such sleep. */
  lemma SleepDiscipline(plan: WatchInput, es: seq<Event>)
    requires ValidWatch(plan) && !plan.once && WatchAfter(plan, es).Some?
    ensures SinceSleep(es) <= |plan.domains|
    ensures var pc := WatchAfter(plan, es).value;
      && (pc.Resting? ==>
            && InBand(plan, pc.st.retryCount, pc.delay, Guidance(es))
            && pc.st.retryCount == plan.resume.retryCount + Rests(plan, es) + 1)
      && (pc.Probing? ==> pc.st.retryCount == plan.resume.retryCount + Rests(plan, es))
  {
    RestInvariantHolds(plan, es);
  }

  // --- one-shot mode -----------------------------------------------------------------------------------------------

  predicate NoSleep(es: seq<Event>) {
    forall e | e in es :: !e.Slept?
  }

  predicate OnceInvariant(plan: WatchInput, probes: nat, pc: WatchPc) {
    var n := |plan.domains|;
    match pc
    case Probing(_) => probes < n
    case Storing(_, Return(Placement(Unavailable, _))) => probes == n
    case Storing(_, Return(_)) => probes <= n
    case Watched(Placement(Unavailable, _)) => probes == n
    case Watched(_) => probes <= n
    case _ => false
  }

  lemma FullTurn(start: nat, q: nat, n: nat)
    requires start < n && 0 < q <= n
    ensures (start + q) % n == start <==> q == n
  {
    if q == n {
      ModUnique(start + q, n, 1, start);
    } else if (start + q) % n == start {
      ModUnique(start, n, 0, start);
      SameResidue(start + q, start, n);
    }
  }

  lemma {:induction false} OnceInvariantHolds(plan: WatchInput, es: seq<Event>)
    requires ValidWatch(plan) && plan.once && WatchAfter(plan, es).Some?
    ensures OnceInvariant(plan, |Probes(es)|, WatchAfter(plan, es).value) && NoSleep(es)
  {
    if es != [] {
      var before := es[..|es| - 1];
      OnceInvariantHolds(plan, before);
      CursorHolds(plan, before);
      assert forall e | e in es :: e in before || e == es[|es| - 1];
      if WatchAfter(plan, before).value.Probing? {
        ModSucc(StartDomain(plan) + |Probes(before)|, |plan.domains|);
        FullTurn(StartDomain(plan), |Probes(before)| + 1, |plan.domains|);
      }
    }
  }

  /** Domain number `d` was probed at exactly one turn of the first round. */
  predicate ProbedOnce(plan: WatchInput, probes: seq<string>, d: nat)
    requires d < |plan.domains| <= |probes|
  {
    exists k | 0 <= k < |plan.domains| && TurnOf(plan, k) == d ::
      probes[k] == plan.domains[d] && (forall j | 0 <= j < |plan.domains| && TurnOf(plan, j) == d :: j == k)
  }

  /** One-shot mode, for every client: no sleep, at most `n` probes; and `Unavailable` is returned only after every
      domain was probed, exactly once, from the clamped resume position. */
  lemma OneShot(plan: WatchInput, es: seq<Event>)
    requires ValidWatch(plan) && plan.once && WatchAfter(plan, es).Some?
    ensures NoSleep(es) && |Probes(es)| <= |plan.domains|
    ensures (exists domain :: WatchAfter(plan, es).value == Watched(Placement(Unavailable, domain))) ==>
      |Probes(es)| == |plan.domains| && forall d: nat | d < |plan.domains| :: ProbedOnce(plan, Probes(es), d)
  {
    OnceInvariantHolds(plan, es);
    if |Probes(es)| == |plan.domains| {
      forall d: nat | d < |plan.domains|
        ensures ProbedOnce(plan, Probes(es), d)
      {
        var k := TurnsCover(plan, 0, d);
        RoundRobin(plan, es, k);
      }
    }
  }

  // --- the persisted delay -----------------------------------------------------------------------------------------

  /** `NextAttempt` in the durable record, which was `initial` at the start. */
  function DurableDeadline(initial: Time, es: seq<Event>): Time {
    if es == [] then initial
    else
      var e := es[|es| - 1];
      if e.Saved? && e.out.written && e.write.Progressed? then e.write.progress.nextAttempt
      else DurableDeadline(initial, es[..|es| - 1])
  }

  predicate DeadlineInvariant(pc: WatchPc, deadline: Time, latest: Time) {
    match pc
    case Waking(st) => deadline == st.nextAttempt
    case Measuring(st) => deadline == st.nextAttempt
    case Dozing(st, wait) => deadline == st.nextAttempt && latest + wait == st.nextAttempt
    case Probing(_) => deadline <= latest
    case Drawing(_, _) => deadline <= latest
    case Stamping(_, _) => deadline <= latest
    case Storing(st, next) => next.Rest? ==> latest + next.delay == st.nextAttempt
    case Resting(st, delay) => deadline == st.nextAttempt && latest + delay == st.nextAttempt
    case Watched(_) => true
  }

  lemma {:induction false} DeadlineHolds(plan: WatchInput, es: seq<Event>)
    requires ValidWatch(plan) && !plan.once && WatchAfter(plan, es).Some? && Timed(es)
    ensures DeadlineInvariant(WatchAfter(plan, es).value, DurableDeadline(plan.resume.nextAttempt, es), Latest(es))
  {
    if es != [] {
      DeadlineHolds(plan, es[..|es| - 1]);
    }
  }

  /** Outside one-shot mode no probe is sent before the `NextAttempt` last saved durably. */
  lemma {:induction false} NoEarlyProbe(plan: WatchInput, es: seq<Event>, i: nat)
    requires ValidWatch(plan) && !plan.once && WatchAfter(plan, es).Some? && Timed(es)
    requires i < |es| && es[i].Probed?
    ensures es[i].at >= DurableDeadline(plan.resume.nextAttempt, es[..i])
  {
    var before := es[..|es| - 1];
    if i < |before| {
      NoEarlyProbe(plan, before, i);
      assert es[..i] == before[..i];
    } else {
      DeadlineHolds(plan, before);
    }
  }
}
