/** internal/capacity/capacity.go and internal/capacity/runtime.go, and the closure of cmd/ocihood/main.go that resumes
    the watcher: the capacity watch as it runs. */
module Watch {
  import opened Basics
  import opened State
  import opened Events
  import opened WatchSpec
  import opened World
  import WatchCalls

  /** `StateStore.Save` */
  method SaveProgress(w: Env, progress: Progress) returns (ok: bool)
    modifies w
    ensures w.Advances() && exists now, out :: w.Writes(Progressed(progress), now, out) && ok == out.ok
    ensures ok || w.refusals > old(w.refusals) || old(w.record).None?
  {
    ghost var write := Progressed(progress);
    var locked := w.TryLock();
    if !locked {
      w.GiveUp(write);
      assert w.Writes(write, w.clock, Outcome(false, false));
      return false;
    }
    var loaded := w.Load();
    if !loaded.Have? {
      w.GiveUp(write);
      assert w.Writes(write, w.clock, Outcome(false, false));
      return false;
    }
    var value := loaded.record;
    match progress.status {
      case Available => value := value.(phase := Provisioning);
      case ProbeUnavailable => value := value.(phase := Provisioning);
      case Fatal => value := value.(phase := Failed);
      case _ => value := value.(phase := Waiting);
    }
    value := value.(selectedAD := progress.lastAD, retryCount := progress.retryCount);
    var now := w.Now();
    value := value.(nextAttempt := progress.nextAttempt, lastResult := KindText(progress.status), updatedAt := now);
    label saving:
    ok := w.Save(value, write, now);
    ghost var out :| w.Writes@saving(write, now, out) && ok == out.ok;
    assert w.Writes(write, now, out);
  }

  /** Save, then return `result`, or fail because the save failed. */
  method SaveAndReturn(w: Env, plan: WatchInput, st: Progress, result: WatchResult) returns (r: WatchResult)
    requires WatchAfter(plan, w.log) == Some(Storing(st, Return(result)))
    modifies w
    ensures w.Advances() && WatchAfter(plan, w.log) == Some(Watched(r))
  {
    WatchSnoc(plan);
    hide WatchFrom, Faithful, Replay, Timed, Latest;
    var ok := SaveProgress(w, st);
    r := if ok then result else WatchError(ProbeKind.Fatal);
  }

  /** The jittered delay, extended by the provider's guidance. */
  method DrawDelay(w: Env, plan: WatchInput, st: Progress, retryAfter: int) returns (delay: nat)
    requires ValidWatch(plan) && Convertible(plan.maximum, plan.jitter)
    requires WatchAfter(plan, w.log) == Some(Drawing(st, retryAfter))
    modifies w
    ensures w.Advances() && WatchAfter(plan, w.log) == Some(Stamping(st, delay))
  {
    WatchSnoc(plan);
    hide WatchFrom, Faithful, Replay, Timed, Latest;
    var draw := w.Float64();
    var backoff := WatchBackoff(plan.initial as Duration, plan.maximum as Duration, plan.jitter, draw, st.retryCount);
    NotNegative(plan, st.retryCount, draw);
    delay := if retryAfter > backoff as int then retryAfter else backoff as int;
  }

  /** The backoff at the end of a round, or after throttling guidance. */
  method BackOff(w: Env, plan: WatchInput, before: Progress, retryAfter: int)
    returns (st: Progress, ended: Option<WatchResult>)
    requires ValidWatch(plan) && Convertible(plan.maximum, plan.jitter)
    requires WatchAfter(plan, w.log) == Some(Drawing(before.(retryCount := before.retryCount + 1), retryAfter))
    modifies w
    ensures w.Advances() && WatchAfter(plan, w.log) == Some(if ended.Some? then Watched(ended.value) else Probing(st))
  {
    hide Faithful, Replay, Timed, Latest, Jittered, WatchBase, OnProbe, OnMiss, ValidWatch;
    ended := None;
    st := before.(retryCount := before.retryCount + 1);
    var delay := DrawDelay(w, plan, st, retryAfter);
    WatchSnoc(plan);
    hide WatchFrom, Faithful, Replay, Timed, Latest;
    var now := w.ReadClock();
    st := st.(nextAttempt := now + delay);
    var ok := SaveProgress(w, st);
    if !ok {
      ended := Some(WatchError(ProbeKind.Fatal));
      return;
    }
    var woke := w.Sleep(delay);
    if !woke {
      ended := Some(WatchError(ProbeKind.Canceled));
    }
  }

  /** The part of the loop body after a probe that found nothing. */
  method Miss(w: Env, plan: WatchInput, before: Progress, kind: ProbeKind, domain: string, retryAfter: int,
              startAD: nat)
    returns (st: Progress, ended: Option<WatchResult>)
    requires ValidWatch(plan) && Convertible(plan.maximum, plan.jitter) && startAD == StartDomain(plan)
    requires WatchAfter(plan, w.log) == Some(OnMiss(plan, before, kind, domain, retryAfter))
    modifies w
    ensures w.Stays()
    ensures WatchAfter(plan, w.log) == Some(if ended.Some? then Watched(ended.value) else Probing(st))
    ensures plan.once && ended.None? ==> w.log == old(w.log)
  {
    ended := None;
    st := before.(lastAD := domain, status := kind);
    st := st.(nextAD := (st.nextAD + 1) % |plan.domains|);
    if plan.once && st.nextAD == startAD {
      st := st.(nextAttempt := 0);
      var r := SaveAndReturn(w, plan, st, Placement(Unavailable, ""));
      ended := Some(r);
      return;
    }
    if plan.once {
      return;
    }
    if st.nextAD != 0 && retryAfter <= 0 {
      return;
    }
    st, ended := BackOff(w, plan, st, retryAfter);
  }

  /** One pass through the body of the watch loop. */
  method Turn(w: Env, plan: WatchInput, before: Progress, startAD: nat)
    returns (st: Progress, ended: Option<WatchResult>)
    requires ValidWatch(plan) && Convertible(plan.maximum, plan.jitter) && startAD == StartDomain(plan)
    requires 0 <= before.nextAD < |plan.domains| && WatchAfter(plan, w.log) == Some(Probing(before))
    modifies w
    ensures w.Advances() && WatchAfter(plan, w.log) == Some(if ended.Some? then Watched(ended.value) else Probing(st))
    ensures ended.None? || ended.value.Placement? ==> old(w.tick) < w.horizon
    ensures plan.once && ended.None? ==> |Probes(w.log)| == |old(Probes(w.log))| + 1
  {
    WatchSnoc(plan);
    hide WatchFrom, Faithful, Replay, Timed, Latest, OnMiss, DelayFor, ValidWatch;
    var domain := plan.domains[before.nextAD];
    var probe, cancelled := w.Probe(domain);
    assert w.log[..|w.log| - 1] == old(w.log);
    if cancelled {
      return before, Some(WatchError(ProbeKind.Canceled));
    }
    var kind := probe.kind;
    if probe.timedOut {
      kind := ProbeKind.Transient;
    } else if probe.failed && kind == ProbeKind.Unset {
      kind := ProbeKind.Transient;
    }
    st, ended := before, None;
    match kind {
      case Canceled => ended := Some(WatchError(ProbeKind.Canceled));
      case Unset => ended := Some(WatchError(ProbeKind.Fatal));
      case Other(_) => ended := Some(WatchError(ProbeKind.Fatal));
      case Unavailable => st, ended := Miss(w, plan, st, kind, domain, probe.retryAfter, startAD);
      case Throttled => st, ended := Miss(w, plan, st, kind, domain, probe.retryAfter, startAD);
      case Transient => st, ended := Miss(w, plan, st, kind, domain, probe.retryAfter, startAD);
      case _ =>
        st := st.(lastAD := domain, status := kind, nextAttempt := 0);
        var r := SaveAndReturn(w, plan, st,
          if kind == ProbeKind.Fatal then WatchError(ProbeKind.Fatal) else Placement(kind, domain));
        ended := Some(r);
    }
  }

  /** The wait for a persisted deadline that has not passed. */
  method Wake(w: Env, plan: WatchInput, st: Progress) returns (ok: bool)
    requires WatchAfter(plan, w.log) == Some(Waking(st))
    modifies w
    ensures w.Advances()
    ensures WatchAfter(plan, w.log) == Some(if ok then Probing(st) else Watched(WatchError(ProbeKind.Canceled)))
  {
    WatchSnoc(plan);
    hide WatchFrom, Faithful, Replay, Timed, Latest;
    ok := true;
    var now := w.ReadClock();
    if st.nextAttempt > now {
      var later := w.ReadClock();
      ok := w.Sleep(st.nextAttempt - later);
    }
  }

  lemma CallsDue(plan: WatchInput, es: seq<Event>, result: WatchResult)
    requires WatchAfter(plan, es) == Some(Watched(result))
    ensures WatchCalls.AllMade(plan, es) && WatchCalls.Due(plan, es) == WatchCalls.Returns(result)
    ensures result.Placement? && (result.kind != Unavailable || !plan.once) ==>
      WatchCalls.Answered(es, result.kind, result.domain)
    ensures !plan.once ==> forall i: nat | i < |es| && WatchCalls.IsMiss(es[i]) :: WatchCalls.GoesOn(es, i)
  {
    WatchCalls.CallsAreDue(plan, es);
    hide WatchFrom, WatchCalls.AllMade, WatchCalls.Due, WatchCalls.Answered, WatchCalls.IsMiss, WatchCalls.GoesOn;
    if result.Placement? && (result.kind != Unavailable || !plan.once) {
      WatchCalls.PlacementIsAnswered(plan, es, result.kind, result.domain);
    }
    if !plan.once {
      forall i: nat | i < |es| && WatchCalls.IsMiss(es[i])
        ensures WatchCalls.GoesOn(es, i)
      {
        WatchCalls.MissGoesOn(plan, es, i);
      }
    }
  }

  /** `Watcher.Watch`: whatever the environment answers, what it did since the mark is a complete behaviour of the
      automaton with its own result, so rotation, sleep discipline and the one-shot guarantee hold of it. One-shot mode
      ends by itself; otherwise the watch may go on until the context is cancelled. */
  method Watch(w: Env, plan: WatchInput) returns (result: WatchResult)
    requires ValidWatch(plan) ==> Convertible(plan.maximum, plan.jitter)
    modifies w
    ensures w.Enters() && WatchAfter(plan, w.log) == Some(Watched(result))
    ensures WatchCalls.AllMade(plan, w.log) && WatchCalls.Due(plan, w.log) == WatchCalls.Returns(result)
    ensures result.Placement? && (result.kind != Unavailable || !plan.once) ==>
      WatchCalls.Answered(w.log, result.kind, result.domain)
    ensures !plan.once ==> forall i: nat | i < |w.log| && WatchCalls.IsMiss(w.log[i]) :: WatchCalls.GoesOn(w.log, i)
    ensures result.Placement? ==> old(w.tick) < w.horizon
    ensures old(w.Honest()) && ValidWatch(plan) && !plan.once ==> forall i | 0 <= i < |w.log| && w.log[i].Probed? ::
      w.log[i].at >= DurableDeadline(plan.resume.nextAttempt, w.log[..i])
    ensures ValidWatch(plan) && !plan.once ==> SinceSleep(w.log) <= |plan.domains|
    ensures ValidWatch(plan) && plan.once ==> NoSleep(w.log) && |Probes(w.log)| <= |plan.domains|
  {
    w.Mark();
    if !ValidWatch(plan) {
      result := WatchError(ProbeKind.Fatal);
      CallsDue(plan, w.log, result);
      return;
    }
    var st := plan.resume;
    if st.nextAD < 0 || st.nextAD >= |plan.domains| {
      st := st.(nextAD := 0);
    }
    var startAD := st.nextAD;
    var ended: Option<WatchResult> := None;
    if !plan.once && st.nextAttempt != 0 {
      var woke := Wake(w, plan, st);
      ended := if woke then None else Some(WatchError(ProbeKind.Canceled));
    }
    while ended.None?
      invariant w.Enters()
      invariant WatchAfter(plan, w.log) == Some(if ended.Some? then Watched(ended.value) else Probing(st))
      invariant ended.Some? && ended.value.Placement? ==> old(w.tick) < w.horizon
      decreases ended.None?, if plan.once then |plan.domains| - |Probes(w.log)| else w.horizon - w.tick
    {
      CursorHolds(plan, w.log);
      if plan.once {
        OnceInvariantHolds(plan, w.log);
      }
      st, ended := Turn(w, plan, st, startAD);
      if plan.once {
        OnceInvariantHolds(plan, w.log);
      }
    }
    result := ended.value;
    CallsDue(plan, w.log, result);
    if plan.once {
      OneShot(plan, w.log);
    } else {
      SleepDiscipline(plan, w.log);
      if w.Honest() {
        forall i | 0 <= i < |w.log| && w.log[i].Probed?
          ensures w.log[i].at >= DurableDeadline(plan.resume.nextAttempt, w.log[..i])
        {
          NoEarlyProbe(plan, w.log, i);
        }
      }
    }
  }

  /** The position after the last occurrence of `last` among the first `m` domains, 0 if there is none. */
  function Cursor(domains: seq<string>, m: nat, last: string): int
    requires m <= |domains|
  {
    if m == 0 then 0 else if domains[m - 1] == last then m % |domains| else Cursor(domains, m - 1, last)
  }

  function StatusOf(text: string): ProbeKind {
    if text == "available" then Available
    else if text == "unavailable" then Unavailable
    else if text == "probe_unavailable" then ProbeUnavailable
    else if text == "throttled" then Throttled
    else if text == "transient" then ProbeKind.Transient
    else if text == "fatal" then ProbeKind.Fatal
    else if text == "canceled" then ProbeKind.Canceled
    else if text == "" then ProbeKind.Unset
    else ProbeKind.Other(text)
  }

  /** What the record says of the last probe is read back as it was: the text always, the kind unless it is unknown. */
  lemma StatusIsReadBack(kind: ProbeKind, text: string)
    ensures KindText(StatusOf(text)) == text
    ensures !kind.Other? ==> StatusOf(KindText(kind)) == kind
  {
  }

  /** `StateStore.Load` followed by the reconstruction of the cursor. */
  function ResumeFrom(domains: seq<string>, r: Record): Progress {
    Progress(r.selectedAD, Cursor(domains, |domains|, r.selectedAD), r.retryCount, r.nextAttempt,
             StatusOf(r.lastResult))
  }

  const JITTER := 0.2

  function WatchPlan(setup: Setup, r: Record): WatchInput {
    WatchInput(setup.domains, setup.once, ResumeFrom(setup.domains, r), setup.complete, setup.timeout,
               setup.retryMin, setup.retryMax, JITTER)
  }

  /** The loop of main.go that rebuilds `NextAD` from `LastAD`. */
  method Rebuild(domains: seq<string>, resume: Progress) returns (st: Progress)
    requires resume.nextAD == 0
    ensures st == resume.(nextAD := Cursor(domains, |domains|, resume.lastAD))
  {
    st := resume;
    for index := 0 to |domains|
      invariant st == resume.(nextAD := Cursor(domains, index, resume.lastAD))
    {
      if domains[index] == resume.lastAD {
        st := st.(nextAD := (index + 1) % |domains|);
      }
    }
  }
}
