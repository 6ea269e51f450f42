/** The watcher without its positions: which call it owes after the events so far. */
module WatchCalls {
  import opened Basics
  import opened State
  import opened Events
  import opened WatchSpec

  datatype Call =
    | ReadsClock
    | Draws
    | Asks(domain: string)
    | Waits(delay: int)
    | Stores(progress: Progress)
    | Returns(result: WatchResult)

  predicate Makes(e: Event, call: Call) {
    match call
    case ReadsClock => e.Clock?
    case Draws => e.Jitter? && 0.0 <= e.draw < 1.0
    case Asks(domain) => e.Probed? && e.domain == domain
    case Waits(delay) => e.Slept? && e.delay == delay
    case Stores(progress) => e.Saved? && e.write == Progressed(progress) && Possible(e.out)
    case Returns(_) => false
  }

  // --- what the events so far tell ---------------------------------------------------------------------------------

  /** Each backoff draws once. */
  function Backoffs(es: seq<Event>): nat {
    if es == [] then 0 else Backoffs(es[..|es| - 1]) + (if es[|es| - 1].Jitter? then 1 else 0)
  }

  function LastDraw(es: seq<Event>): (draw: real)
    ensures 0.0 <= draw < 1.0
  {
    if es == [] then 0.0
    else if es[|es| - 1].Jitter? && 0.0 <= es[|es| - 1].draw < 1.0 then es[|es| - 1].draw
    else LastDraw(es[..|es| - 1])
  }

  function LastProbe(es: seq<Event>): (e: Option<Event>)
    ensures e.Some? ==> e.value.Probed?
  {
    if es == [] then None else if es[|es| - 1].Probed? then Some(es[|es| - 1]) else LastProbe(es[..|es| - 1])
  }

  function RetryCount(plan: WatchInput, es: seq<Event>): nat {
    plan.resume.retryCount + Backoffs(es)
  }

  /** The domain after the probes so far. */
  function NextDomain(plan: WatchInput, es: seq<Event>): string
    requires plan.domains != []
  {
    plan.domains[TurnOf(plan, |Probes(es)|)]
  }

  /** The backoff after the last draw: jittered around the base delay of the retry, or what the last probe asked for. */
  function Backoff(plan: WatchInput, es: seq<Event>): (delay: nat)
    requires ValidWatch(plan)
  {
    NotNegative(plan, RetryCount(plan, es), LastDraw(es));
    var delay := Jittered(WatchBase(plan.initial, plan.maximum, RetryCount(plan, es)), plan.maximum, plan.jitter,
                          LastDraw(es));
    if Guidance(es) > delay then Guidance(es) else delay
  }

  // --- the call that is due ----------------------------------------------------------------------------------------

  const FAILED := Returns(WatchError(ProbeKind.Fatal))
  const STOPPED := Returns(WatchError(ProbeKind.Canceled))

  /** After the last of `es`, a probe that was answered. */
  ghost function DueProbed(plan: WatchInput, es: seq<Event>, domain: string, probe: ProbeAnswer): Call
    requires plan.domains != [] && Probes(es) != []
  {
    var kind, n := Effective(probe), |Probes(es)|;
    if kind == Available || kind == ProbeUnavailable || kind == ProbeKind.Fatal then
      Stores(Progress(domain, TurnOf(plan, n - 1), RetryCount(plan, es), 0, kind))
    else if kind == ProbeKind.Canceled then STOPPED
    else if kind != Unavailable && kind != Throttled && kind != ProbeKind.Transient then FAILED
    else if plan.once then
      if n == |plan.domains| then Stores(Progress(domain, TurnOf(plan, n), RetryCount(plan, es), 0, kind))
      else Asks(NextDomain(plan, es))
    else if TurnOf(plan, n) != 0 && probe.retryAfter <= 0 then Asks(NextDomain(plan, es))
    else Draws
  }

  /** After the last of `es`, a reading of the clock: on waking up, or for the deadline of a backoff. */
  ghost function DueClock(plan: WatchInput, es: seq<Event>, now: Time): Call
    requires ValidWatch(plan)
  {
    if LastProbe(es).None? then
      if |es| > 1 then Waits(plan.resume.nextAttempt - now)
      else if plan.resume.nextAttempt > now then ReadsClock
      else Asks(NextDomain(plan, es))
    else
      var e := LastProbe(es).value;
      Stores(Progress(e.domain, TurnOf(plan, |Probes(es)|), RetryCount(plan, es), now + Backoff(plan, es),
                      Effective(e.probe)))
  }

  /** After the last of `es`, a save that succeeded: of a deadline, or of what the last probe settled. */
  ghost function DueSaved(plan: WatchInput, es: seq<Event>): Call
    requires ValidWatch(plan) && es != []
  {
    if |es| > 1 && es[|es| - 2].Clock? then Waits(Backoff(plan, es))
    else if |es| == 1 || !es[|es| - 2].Probed? then FAILED
    else
      var e := es[|es| - 2];
      if e.probe.kind == ProbeKind.Fatal && !e.probe.timedOut then FAILED
      else if (e.probe.kind == Available || e.probe.kind == ProbeUnavailable) && !e.probe.timedOut then
        Returns(Placement(e.probe.kind, e.domain))
      else Returns(Placement(Unavailable, ""))
  }

  ghost function Due(plan: WatchInput, es: seq<Event>): Call {
    if !ValidWatch(plan) then FAILED
    else if es == [] then
      if !plan.once && plan.resume.nextAttempt != 0 then ReadsClock
      else Asks(plan.domains[if 0 <= plan.resume.nextAD < |plan.domains| then plan.resume.nextAD else 0])
    else
      match es[|es| - 1]
      case Clock(now) => DueClock(plan, es, now)
      case Jitter(_) => ReadsClock
      case Slept(_, ok, _) => if ok then Asks(NextDomain(plan, es)) else STOPPED
      case Probed(domain, probe, cancelled, _) => if cancelled then STOPPED else DueProbed(plan, es, domain, probe)
      case Saved(_, _, _, out) => if out.ok then DueSaved(plan, es) else FAILED
      case _ => FAILED
  }

  // --- the automaton makes exactly the calls that are due -----------------------------------------------------------

  ghost function CallOf(plan: WatchInput, pc: WatchPc): Call {
    match pc
    case Waking(_) => ReadsClock
    case Measuring(_) => ReadsClock
    case Dozing(_, wait) => Waits(wait)
    case Probing(st) => if 0 <= st.nextAD < |plan.domains| then Asks(plan.domains[st.nextAD]) else FAILED
    case Drawing(_, _) => Draws
    case Stamping(_, _) => ReadsClock
    case Storing(st, _) => Stores(st)
    case Resting(_, delay) => Waits(delay)
    case Watched(result) => Returns(result)
  }

  /** The progress after a probe that missed. */
  predicate Missed(plan: WatchInput, es: seq<Event>, st: Progress)
    requires plan.domains != []
  {
    && LastProbe(es).Some? && st.lastAD == LastProbe(es).value.domain
    && st.status == Effective(LastProbe(es).value.probe)
    && st.nextAD == TurnOf(plan, |Probes(es)|)
  }

  /** What the position remembers is what the events tell. */
  predicate Remembers(plan: WatchInput, es: seq<Event>, pc: WatchPc)
    requires ValidWatch(plan)
  {
    match pc
    case Waking(st) => es == [] && st.nextAttempt == plan.resume.nextAttempt && st.retryCount == RetryCount(plan, es)
                       && st.nextAD == StartDomain(plan)
    case Measuring(st) => |es| == 1 && es[0].Clock? && st.nextAttempt == plan.resume.nextAttempt
                          && st.retryCount == RetryCount(plan, es) && st.nextAD == StartDomain(plan)
    case Dozing(st, _) => LastProbe(es).None? && st.retryCount == RetryCount(plan, es)
                          && st.nextAD == StartDomain(plan)
    case Probing(st) => st.retryCount == RetryCount(plan, es) && st.nextAD == TurnOf(plan, |Probes(es)|)
    case Drawing(st, retryAfter) =>
      Missed(plan, es, st) && st.retryCount == RetryCount(plan, es) + 1 && Guidance(es) == retryAfter
    case Stamping(st, delay) =>
      && Missed(plan, es, st) && st.retryCount == RetryCount(plan, es) && delay == Backoff(plan, es)
      && es != [] && es[|es| - 1].Jitter?
    case Storing(st, Rest(delay)) =>
      && Missed(plan, es, st) && st.retryCount == RetryCount(plan, es) && delay == Backoff(plan, es)
      && es != [] && es[|es| - 1].Clock?
    case Storing(st, Return(result)) =>
      es != [] && es[|es| - 1].Probed? && Settles(plan, es[|es| - 1].domain, es[|es| - 1].probe, result)
    case Resting(st, _) => st.retryCount == RetryCount(plan, es) && st.nextAD == TurnOf(plan, |Probes(es)|)
    case Watched(_) => true
  }

  predicate Settles(plan: WatchInput, domain: string, probe: ProbeAnswer, result: WatchResult) {
    var kind := Effective(probe);
    match kind
    case Available => result == Placement(kind, domain)
    case ProbeUnavailable => result == Placement(kind, domain)
    case Fatal => result == WatchError(ProbeKind.Fatal)
    case _ => result == Placement(Unavailable, "")
  }

  ghost predicate Tracks(plan: WatchInput, es: seq<Event>, pc: WatchPc) {
    Due(plan, es) == CallOf(plan, pc) && (ValidWatch(plan) ==> Remembers(plan, es, pc))
  }

  lemma CallIsNext(plan: WatchInput, es: seq<Event>, e: Event)
    requires ValidWatch(plan) && WatchAfter(plan, es).Some? && Tracks(plan, es, WatchAfter(plan, es).value)
    ensures WatchNext(plan, WatchAfter(plan, es).value, e).Some? <==> Makes(e, CallOf(plan, WatchAfter(plan, es).value))
  {
    var pc := WatchAfter(plan, es).value;
    if pc.Drawing? && e.Jitter? && 0.0 <= e.draw < 1.0 {
      NotNegative(plan, pc.st.retryCount, e.draw);
    }
    hide WatchFrom, OnProbe, Jittered, WatchBase, Due;
  }

  lemma NoProbeYet(es: seq<Event>)
    ensures LastProbe(es).None? <==> Probes(es) == []
  {
  }

  /** The step that the last of `es` makes. */
  ghost predicate Steps(plan: WatchInput, es: seq<Event>, pc: WatchPc, pc': WatchPc) {
    && ValidWatch(plan) && es != [] && WatchAfter(plan, es[..|es| - 1]) == Some(pc)
    && WatchNext(plan, pc, es[|es| - 1]) == Some(pc') && Tracks(plan, es[..|es| - 1], pc)
  }

  lemma TracksStep(plan: WatchInput, es: seq<Event>, pc: WatchPc, pc': WatchPc)
    requires Steps(plan, es, pc, pc')
    ensures Tracks(plan, es, pc')
  {
    assert !pc.Watched?;
    hide Steps, Tracks;
    match pc
    case Probing(_) => ProbeStep(plan, es, pc, pc');
    case Storing(_, Return(_)) => ReturnStep(plan, es, pc, pc');
    case Waking(_) => WakeStep(plan, es, pc, pc');
    case Measuring(_) => WakeStep(plan, es, pc, pc');
    case Dozing(_, _) => WakeStep(plan, es, pc, pc');
    case _ => RestStep(plan, es, pc, pc');
  }

  lemma WakeStep(plan: WatchInput, es: seq<Event>, pc: WatchPc, pc': WatchPc)
    requires (pc.Waking? || pc.Measuring? || pc.Dozing?) && Steps(plan, es, pc, pc')
    ensures Tracks(plan, es, pc')
  {
    NoProbeYet(es);
    ModUnique(StartDomain(plan), |plan.domains|, 0, StartDomain(plan));
    hide WatchFrom, OnProbe, DueProbed, DueSaved, DelayFor, Jittered, Backoff;
  }

  /** What the last of `es`, the probe `e` made with the progress `st`, adds to the events before it. */
  predicate JustProbed(plan: WatchInput, es: seq<Event>, st: Progress, e: Event)
    requires plan.domains != []
  {
    var n := |Probes(es)|;
    && n > 0 && es != [] && e.Probed? && es[|es| - 1] == e && LastProbe(es) == Some(e)
    && Guidance(es) == e.probe.retryAfter && st.retryCount == RetryCount(plan, es)
    && st.nextAD == TurnOf(plan, n - 1) && (st.nextAD + 1) % |plan.domains| == TurnOf(plan, n)
    && (plan.once ==> (TurnOf(plan, n) == StartDomain(plan) <==> n == |plan.domains|))
  }

  lemma JustProbedHolds(plan: WatchInput, es: seq<Event>, st: Progress, e: Event)
    requires ValidWatch(plan) && es != [] && es[|es| - 1] == e && e.Probed?
    requires st.retryCount == RetryCount(plan, es[..|es| - 1]) && st.nextAD == TurnOf(plan, |Probes(es[..|es| - 1])|)
    requires plan.once ==> |Probes(es[..|es| - 1])| < |plan.domains|
    ensures JustProbed(plan, es, st, e)
  {
    var n := |Probes(es[..|es| - 1])|;
    assert |Probes(es)| == n + 1;
    hide Probes;
    ModSucc(StartDomain(plan) + n, |plan.domains|);
    hide ValidWatch;
    if plan.once {
      FullTurn(StartDomain(plan), n + 1, |plan.domains|);
    }
    hide StartDomain;
  }

  lemma ProbeStep(plan: WatchInput, es: seq<Event>, pc: WatchPc, pc': WatchPc)
    requires pc.Probing? && Steps(plan, es, pc, pc')
    ensures Tracks(plan, es, pc')
  {
    hide WatchFrom, OnProbe, DueProbed, StartDomain, Effective, TurnOf, JustProbed, ValidWatch;
    var e := es[|es| - 1];
    if plan.once {
      OnceInvariantHolds(plan, es[..|es| - 1]);
    }
    JustProbedHolds(plan, es, pc.st, e);
    hide Probes, RetryCount;
    if !e.cancelled {
      ProbeAnswered(plan, es, pc.st, e);
    }
  }

  lemma ProbeAnswered(plan: WatchInput, es: seq<Event>, st: Progress, e: Event)
    requires ValidWatch(plan) && JustProbed(plan, es, st, e)
    ensures var pc := OnProbe(plan, st, e.domain, e.probe);
      DueProbed(plan, es, e.domain, e.probe) == CallOf(plan, pc) && Remembers(plan, es, pc)
  {
    hide ValidWatch, Probes, Backoffs, LastProbe, Guidance, RetryCount, StartDomain, Effective, Backoff;
  }

  lemma RestStep(plan: WatchInput, es: seq<Event>, pc: WatchPc, pc': WatchPc)
    requires pc.Drawing? || pc.Stamping? || (pc.Storing? && pc.next.Rest?) || pc.Resting?
    requires Steps(plan, es, pc, pc')
    ensures Tracks(plan, es, pc')
  {
    hide WatchFrom, OnProbe, DueProbed, Jittered, WatchBase, Effective;
  }

  lemma ReturnStep(plan: WatchInput, es: seq<Event>, pc: WatchPc, pc': WatchPc)
    requires pc.Storing? && pc.next.Return? && Steps(plan, es, pc, pc')
    ensures Tracks(plan, es, pc')
  {
    hide WatchFrom, OnProbe, DueProbed, DueClock, DelayFor, Jittered, Backoff;
  }

  ghost predicate Made(plan: WatchInput, es: seq<Event>, k: nat)
    requires k < |es|
  {
    Makes(es[k], Due(plan, es[..k]))
  }

  /** The events are exactly the calls that were due, each after what happened before it. */
  ghost predicate AllMade(plan: WatchInput, es: seq<Event>) {
    forall k: nat | k < |es| :: Made(plan, es, k)
  }

  lemma MadeSnoc(plan: WatchInput, es: seq<Event>)
    requires es != []
    ensures AllMade(plan, es) <==> AllMade(plan, es[..|es| - 1]) && Made(plan, es, |es| - 1)
  {
    var before := es[..|es| - 1];
    forall k: nat | k < |before|
      ensures Made(plan, es, k) <==> Made(plan, before, k)
    {
      assert es[..k] == before[..k];
    }
    hide Made;
  }

  lemma TracksStart(plan: WatchInput)
    ensures Tracks(plan, [], WatchStart(plan))
  {
    if ValidWatch(plan) {
      ModUnique(StartDomain(plan), |plan.domains|, 0, StartDomain(plan));
    }
  }

  lemma {:induction false} Tracked(plan: WatchInput, es: seq<Event>)
    ensures WatchAfter(plan, es).Some? <==> AllMade(plan, es)
    ensures WatchAfter(plan, es).Some? ==> Tracks(plan, es, WatchAfter(plan, es).value)
  {
    TracksStart(plan);
    if es != [] {
      var before, e := es[..|es| - 1], es[|es| - 1];
      Tracked(plan, before);
      MadeSnoc(plan, es);
      if AllMade(plan, before) {
        var pc := WatchAfter(plan, before).value;
        if ValidWatch(plan) {
          CallIsNext(plan, before, e);
        } else {
          StaysRefused(plan, before);
        }
        hide WatchNext, AllMade, Due, CallOf;
        if WatchAfter(plan, es).Some? {
          TracksStep(plan, es, pc, WatchAfter(plan, es).value);
        }
      }
    }
  }

  lemma {:induction false} StaysRefused(plan: WatchInput, es: seq<Event>)
    requires !ValidWatch(plan)
    ensures WatchAfter(plan, es).Some? ==> WatchAfter(plan, es).value.Watched?
  {
    if es != [] {
      StaysRefused(plan, es[..|es| - 1]);
    }
  }

  /** The watcher makes the calls that are due and no others, and ends when a return is due: its behaviour is determined
      by the answers it got. */
  lemma CallsAreDue(plan: WatchInput, es: seq<Event>)
    ensures WatchAfter(plan, es).Some? <==> AllMade(plan, es)
    ensures forall result :: WatchAfter(plan, es) == Some(Watched(result)) <==>
      AllMade(plan, es) && Due(plan, es) == Returns(result)
  {
    Tracked(plan, es);
    if !ValidWatch(plan) {
      StaysRefused(plan, es);
    }
    hide WatchFrom, AllMade, Due;
  }

  // --- placements and misses ---------------------------------------------------------------------------------------

  /** The last probe asked for `domain`, was answered `kind` in time, and that was stored. */
  predicate Answered(es: seq<Event>, kind: ProbeKind, domain: string) {
    |es| >= 2 &&
    var e, saved := es[|es| - 2], es[|es| - 1];
    && e.Probed? && e.domain == domain && !e.cancelled && !e.probe.timedOut && e.probe.kind == kind
    && (kind == Available || kind == ProbeUnavailable)
    && saved.Saved? && saved.out.ok && saved.write.Progressed?
    && saved.write.progress.lastAD == domain && saved.write.progress.status == kind
  }

  /** A placement is what the last probe answered; only a round of one-shot mode ends with another, which says that
      there is no capacity. */
  lemma PlacementIsAnswered(plan: WatchInput, es: seq<Event>, kind: ProbeKind, domain: string)
    requires WatchAfter(plan, es) == Some(Watched(Placement(kind, domain)))
    requires kind != Unavailable || !plan.once
    ensures Answered(es, kind, domain)
  {
    CallsAreDue(plan, es);
    hide WatchFrom;
    var before := es[..|es| - 1];
    assert Made(plan, es, |es| - 1);
    assert before != [];
  }

  /** A probe that was answered without capacity, or not at all. */
  predicate IsMiss(e: Event) {
    && e.Probed? && !e.cancelled
    && (e.probe.timedOut || e.probe.kind == Unavailable || e.probe.kind == Throttled
        || e.probe.kind == ProbeKind.Transient || (e.probe.failed && e.probe.kind == ProbeKind.Unset))
  }

  /** After event `i` the watcher draws a delay, stores the deadline, sleeps for at least `guidance`, and probes again;
      only a failed save or an interrupted sleep ends it earlier. */
  predicate BacksOff(es: seq<Event>, i: nat, guidance: int, ended: bool) {
    && (i + 1 < |es| ==> es[i + 1].Jitter?)
    && (i + 2 < |es| ==> es[i + 2].Clock?)
    && (i + 3 < |es| ==> es[i + 3].Saved?)
    && (i + 4 < |es| ==> es[i + 3].out.ok && es[i + 4].Slept? && es[i + 4].delay >= guidance)
    && (i + 5 < |es| ==> es[i + 4].ok && es[i + 5].Probed?)
    && (ended ==> |es| > i + 5 || (|es| == i + 4 && !es[i + 3].out.ok) || (|es| == i + 5 && !es[i + 4].ok))
  }

  lemma Follow(plan: WatchInput, es: seq<Event>, k: nat)
    requires AllMade(plan, es) && k < |es|
    ensures Makes(es[k], Due(plan, es[..k])) && es[..k + 1][|es[..k + 1]| - 1] == es[k] && es[..k + 1][..k] == es[..k]
    ensures k > 0 ==> es[..k + 1][|es[..k + 1]| - 2] == es[k - 1]
  {
    assert Made(plan, es, k);
  }

  /** The last of `es` is a step of a backoff: which call is due next, and that the guidance is not forgotten. */
  lemma BackoffStep(plan: WatchInput, es: seq<Event>, guidance: int)
    requires ValidWatch(plan) && |es| > 1 && LastProbe(es[..|es| - 1]).Some? && Guidance(es[..|es| - 1]) == guidance
    requires es[|es| - 1].Clock? || es[|es| - 1].Jitter? || (es[|es| - 1].Saved? && es[|es| - 2].Clock?)
    ensures LastProbe(es).Some? && Guidance(es) == guidance
    ensures match es[|es| - 1]
      case Jitter(_) => Due(plan, es) == ReadsClock
      case Clock(_) => Due(plan, es).Stores?
      case _ => if es[|es| - 1].out.ok then Due(plan, es).Waits? && Due(plan, es).delay >= guidance
                else Due(plan, es) == FAILED
  {
    hide Jittered, WatchBase, TurnOf, Effective;
  }

  lemma SleepStep(plan: WatchInput, es: seq<Event>)
    requires ValidWatch(plan) && es != [] && es[|es| - 1].Slept?
    ensures if es[|es| - 1].ok then Due(plan, es).Asks? else Due(plan, es) == STOPPED
  {
  }

  /** After the first `k` events the last probe asked for `guidance`. */
  predicate Recalls(es: seq<Event>, k: nat, guidance: int) {
    k <= |es| && LastProbe(es[..k]).Some? && Guidance(es[..k]) == guidance
  }

  /** Event `k` belongs to a backoff: what it is, and what follows. */
  lemma BackoffGoes(plan: WatchInput, es: seq<Event>, k: nat, guidance: int)
    requires ValidWatch(plan) && AllMade(plan, es) && 0 < k < |es| && Recalls(es, k, guidance)
    requires var due := Due(plan, es[..k]); due == Draws || due == ReadsClock || (due.Stores? && es[k - 1].Clock?)
    ensures Recalls(es, k + 1, guidance)
    ensures match Due(plan, es[..k])
      case Draws => es[k].Jitter? && Due(plan, es[..k + 1]) == ReadsClock
      case ReadsClock => es[k].Clock? && Due(plan, es[..k + 1]).Stores?
      case _ =>
        && es[k].Saved?
        && if es[k].out.ok then Due(plan, es[..k + 1]).Waits? && Due(plan, es[..k + 1]).delay >= guidance
           else Due(plan, es[..k + 1]) == FAILED
  {
    Follow(plan, es, k);
    hide Due, LastProbe, Guidance, AllMade, ValidWatch;
    BackoffStep(plan, es[..k + 1], guidance);
  }

  lemma SleepGoes(plan: WatchInput, es: seq<Event>, k: nat)
    requires ValidWatch(plan) && AllMade(plan, es) && k < |es| && Due(plan, es[..k]).Waits?
    ensures es[k].Slept? && es[k].delay == Due(plan, es[..k]).delay
    ensures if es[k].ok then Due(plan, es[..k + 1]).Asks? else Due(plan, es[..k + 1]) == STOPPED
  {
    Follow(plan, es, k);
    hide Due, AllMade, ValidWatch;
    SleepStep(plan, es[..k + 1]);
  }

  lemma EndGoes(plan: WatchInput, es: seq<Event>, k: nat)
    requires AllMade(plan, es) && k < |es|
    ensures !Due(plan, es[..k]).Returns? && (Due(plan, es[..k]).Asks? ==> es[k].Probed?)
  {
    Follow(plan, es, k);
    hide Due, AllMade;
  }

  lemma BackoffFollows(plan: WatchInput, es: seq<Event>, i: nat)
    requires ValidWatch(plan) && AllMade(plan, es) && i < |es| && es[i].Probed? && Due(plan, es[..i + 1]) == Draws
    ensures BacksOff(es, i, es[i].probe.retryAfter, Due(plan, es).Returns?)
  {
    var n, guidance := |es|, es[i].probe.retryAfter;
    assert es[..n] == es;
    assert es[..i + 1][|es[..i + 1]| - 1] == es[i];
    assert Recalls(es, i + 1, guidance);
    hide Due, Recalls, AllMade, ValidWatch;
    if i + 1 < n { BackoffGoes(plan, es, i + 1, guidance); }
    if i + 2 < n { BackoffGoes(plan, es, i + 2, guidance); }
    if i + 3 < n { BackoffGoes(plan, es, i + 3, guidance); }
    if i + 4 < n { EndGoes(plan, es, i + 4); SleepGoes(plan, es, i + 4); }
    if i + 5 < n { EndGoes(plan, es, i + 5); }
  }

  /** Outside one-shot mode a miss is followed by a backoff at the end of a round or when the provider asked to wait,
      and otherwise by the probe of the next domain. */
  lemma MissIsFollowed(plan: WatchInput, es: seq<Event>, i: nat)
    requires !plan.once && WatchAfter(plan, es).Some? && i < |es| && IsMiss(es[i])
    ensures plan.domains != []
    ensures var ended := WatchAfter(plan, es).value.Watched?;
      if es[i].probe.retryAfter > 0 || TurnOf(plan, |Probes(es[..i + 1])|) == 0 then
        BacksOff(es, i, es[i].probe.retryAfter, ended)
      else if i + 1 == |es| then !ended
      else es[i + 1].Probed? && es[i + 1].domain == plan.domains[TurnOf(plan, |Probes(es[..i + 1])|)]
  {
    Tracked(plan, es);
    Follow(plan, es, 0);
    Follow(plan, es, i);
    hide WatchFrom, AllMade, BacksOff, Backoff;
    if Due(plan, es[..i + 1]) == Draws {
      BackoffFollows(plan, es, i);
    } else if i + 1 < |es| {
      Follow(plan, es, i + 1);
    } else {
      assert es[..i + 1] == es;
    }
  }

  /** The events after number `i` are those of a watcher that goes on: it probes again, unless a save failed or a sleep
      was interrupted. */
  predicate GoesOn(es: seq<Event>, i: nat) {
    && i + 1 < |es|
    && var last := es[|es| - 1];
       || (last.Saved? && !last.out.ok) || (last.Slept? && !last.ok)
       || exists j | i < j < |es| :: es[j].Probed?
  }

  /** No miss ends the watch outside one-shot mode. */
  lemma MissGoesOn(plan: WatchInput, es: seq<Event>, i: nat)
    requires !plan.once && WatchAfter(plan, es).Some? && WatchAfter(plan, es).value.Watched?
    requires i < |es| && IsMiss(es[i])
    ensures GoesOn(es, i)
  {
    MissIsFollowed(plan, es, i);
    hide WatchFrom, TurnOf, Probes, IsMiss;
  }
}
