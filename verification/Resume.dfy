/** A watcher that dies during a backoff sleep and is restarted behaves like one that was never interrupted. */
module Resume {
  import opened Basics
  import opened Reconcile
  import opened State
  import opened Events
  import opened WatchSpec
  import opened Watch

  predicate Distinct(domains: seq<string>) {
    forall i, j | 0 <= i < j < |domains| :: domains[i] != domains[j]
  }

  lemma {:induction false} CursorFinds(domains: seq<string>, m: nat, i: nat)
    requires Distinct(domains) && i < m <= |domains|
    ensures Cursor(domains, m, domains[i]) == (i + 1) % |domains|
  {
    if i != m - 1 {
      CursorFinds(domains, m - 1, i);
    }
  }

  /** The backoff sequence that ends a round is under way. */
  predicate BackingOff(pc: WatchPc) {
    pc.Drawing? || pc.Stamping? || pc.Resting? || (pc.Storing? && pc.next.Rest?)
  }

  lemma {:induction false} LastProbed(plan: WatchInput, es: seq<Event>)
    requires ValidWatch(plan) && WatchAfter(plan, es).Some? && BackingOff(WatchAfter(plan, es).value)
    ensures |Probes(es)| > 0 && WatchAfter(plan, es).value.st.lastAD == Probes(es)[|Probes(es)| - 1]
  {
    var before := es[..|es| - 1];
    if BackingOff(WatchAfter(plan, before).value) {
      LastProbed(plan, before);
    }
  }

  /** While backing off, the next domain is the one after `LastAD`, so the cursor needs no place in the record. */
  lemma CursorIsRedundant(plan: WatchInput, es: seq<Event>)
    requires ValidWatch(plan) && WatchAfter(plan, es).Some? && BackingOff(WatchAfter(plan, es).value)
    requires Distinct(plan.domains)
    ensures var st := WatchAfter(plan, es).value.st;
      Cursor(plan.domains, |plan.domains|, st.lastAD) == st.nextAD
  {
    LastProbed(plan, es);
    CursorHolds(plan, es);
    var k := |Probes(es)| - 1;
    RoundRobin(plan, es, k);
    ModSucc(StartDomain(plan) + k, |plan.domains|);
    CursorFinds(plan.domains, |plan.domains|, TurnOf(plan, k));
  }

  /** Equal except for the status, which the watcher overwrites before it uses or saves it. */
  predicate SameProgress(a: Progress, b: Progress) {
    a == b.(status := a.status)
  }

  predicate SamePc(a: WatchPc, b: WatchPc) {
    a == b || (a.Probing? && b.Probing? && SameProgress(a.st, b.st))
  }

  predicate Same(a: Option<WatchPc>, b: Option<WatchPc>) {
    (a.None? && b.None?) || (a.Some? && b.Some? && SamePc(a.value, b.value))
  }

  lemma SameStep(p: WatchInput, q: WatchInput, a: WatchPc, b: WatchPc, e: Event)
    requires !p.once && q == p.(resume := q.resume) && SamePc(a, b)
    ensures Same(WatchNext(p, a, e), WatchNext(q, b, e))
  {
    if a.Probing? && e.Probed? && 0 <= a.st.nextAD < |p.domains| {
      assert b.Probing? && b.st.nextAD == a.st.nextAD;
      assert Same(Some(OnProbe(p, a.st, e.domain, e.probe)), Some(OnProbe(q, b.st, e.domain, e.probe)));
    }
  }

  lemma {:induction false} SameFuture(p: WatchInput, q: WatchInput, a: seq<Event>, b: seq<Event>, more: seq<Event>)
    requires !p.once && q == p.(resume := q.resume) && Same(WatchAfter(p, a), WatchAfter(q, b))
    ensures Same(WatchAfter(p, a + more), WatchAfter(q, b + more))
  {
    hide WatchNext, WatchStart, SamePc;
    if more == [] {
      assert a + more == a && b + more == b;
    } else {
      var before, e := more[..|more| - 1], more[|more| - 1];
      SameFuture(p, q, a, b, before);
      assert (a + more)[..|a + more| - 1] == a + before && (b + more)[..|b + more| - 1] == b + before;
      if WatchAfter(p, a + before).Some? {
        SameStep(p, q, WatchAfter(p, a + before).value, WatchAfter(q, b + before).value, e);
      }
    }
  }

  /** Waking up changes nothing in the progress. */
  lemma {:induction false} WakeKeeps(plan: WatchInput, wake: seq<Event>)
    requires ValidWatch(plan) && !plan.once && WatchAfter(plan, wake).Some?
    requires forall e | e in wake :: !e.Probed?
    ensures var pc := WatchAfter(plan, wake).value;
      pc.Waking? || pc.Measuring? || pc.Dozing? || pc.Probing? ==> pc.st == plan.resume.(nextAD := StartDomain(plan))
    ensures var pc := WatchAfter(plan, wake).value;
      pc.Waking? || pc.Measuring? || pc.Dozing? || pc.Probing? || pc.Watched?
  {
    if wake != [] {
      WakeKeeps(plan, wake[..|wake| - 1]);
    }
  }

  lemma SavedBeforeResting(plan: WatchInput, pc: WatchPc, e: Event)
    requires WatchNext(plan, pc, e).Some? && WatchNext(plan, pc, e).value.Resting?
    ensures e.Saved? && e.write == Progressed(WatchNext(plan, pc, e).value.st) && e.out.written
  {
    hide DelayFor, Effective;
  }

  /** During a backoff sleep the durable record holds the watcher's progress. */
  lemma RestingIsDurable(key: Key, initial: Option<Record>, plan: WatchInput, es: seq<Event>)
    requires WatchAfter(plan, es).Some? && WatchAfter(plan, es).value.Resting? && Faithful(key, initial, es)
    ensures var st, r := WatchAfter(plan, es).value.st, Replay(key, initial, es);
      && r.Some? && r.value.phase == PhaseOf(st.status)
      && r.value.selectedAD == st.lastAD && r.value.retryCount == st.retryCount && r.value.nextAttempt == st.nextAttempt
  {
    var before, e := es[..|es| - 1], es[|es| - 1];
    SavedBeforeResting(plan, WatchAfter(plan, before).value, e);
    assert e.Saved? && e.write == Progressed(WatchAfter(plan, es).value.st) && e.out.written;
    assert Reports(key, Replay(key, initial, before), e);
    hide WatchFrom, WatchNext, Valid, Replay, Faithful;
  }

  /** The watcher is sleeping off a backoff. */
  predicate Sleeps(plan: WatchInput, es: seq<Event>) {
    WatchAfter(plan, es).Some? && WatchAfter(plan, es).value.Resting?
  }

  /** The same watcher once that sleep is over. */
  function Rested(plan: WatchInput, es: seq<Event>, woke: Time): seq<Event>
    requires Sleeps(plan, es)
  {
    es + [Slept(WatchAfter(plan, es).value.delay, true, woke)]
  }

  /** A restarted watcher has waited, if it had to, and is about to send its first probe. */
  predicate Wakes(plan: WatchInput, wake: seq<Event>) {
    WatchAfter(plan, wake).Some? && WatchAfter(plan, wake).value.Probing? && forall e | e in wake :: !e.Probed?
  }

  /** From then on both can do exactly the same: probes, draws, delays, retry counts, saves and results. */
  ghost predicate SameAhead(p: WatchInput, a: seq<Event>, q: WatchInput, b: seq<Event>) {
    forall more :: Same(WatchAfter(p, a + more), WatchAfter(q, b + more))
  }

  predicate KeepsProgress(before: Option<Record>, r: Record) {
    && before.Some? && r.selectedAD == before.value.selectedAD
    && r.retryCount == before.value.retryCount && r.nextAttempt == before.value.nextAttempt
  }

  /** Uninterrupted, the watcher did `es` and is sleeping off its backoff. The process dies. Whatever happens to the
      rest of the record, a watcher that starts from it and has waited behaves like the first one after its sleep. */
  lemma RestartRefines(key: Key, setup: Setup, first: Record, initial: Option<Record>, es: seq<Event>, second: Record,
                       wake: seq<Event>, woke: Time)
    requires !setup.once && Distinct(setup.domains) && ValidWatch(WatchPlan(setup, first))
    requires Sleeps(WatchPlan(setup, first), es) && Faithful(key, initial, es)
    requires KeepsProgress(Replay(key, initial, es), second) && Wakes(WatchPlan(setup, second), wake)
    ensures SameAhead(WatchPlan(setup, first), Rested(WatchPlan(setup, first), es, woke),
                      WatchPlan(setup, second), wake)
  {
    var p, q := WatchPlan(setup, first), WatchPlan(setup, second);
    var st := WatchAfter(p, es).value.st;
    RestingIsDurable(key, initial, p, es);
    CursorIsRedundant(p, es);
    CursorHolds(p, es);
    assert SameProgress(st, q.resume) && q.resume.nextAD == StartDomain(q);
    WakeKeeps(q, wake);
    var a := Rested(p, es, woke);
    assert a[..|a| - 1] == es;
    assert Same(WatchAfter(p, a), WatchAfter(q, wake));
    hide WatchNext, WatchFrom, Same;
    forall more: seq<Event>
      ensures Same(WatchAfter(p, a + more), WatchAfter(q, wake + more))
    {
      SameFuture(p, q, a, wake, more);
    }
  }

  /** The restart settles the record before it loads it again: whatever it observes, draws and decides, and whatever
      becomes of that save, the watcher goes on as if it had not been interrupted. */
  lemma ResumeRefines(key: Key, setup: Setup, first: Record, initial: Option<Record>, es: seq<Event>,
                      seen: seq<Instance>, draw: Option<seq<Byte>>, now: Time, out: Outcome, second: Record,
                      wake: seq<Event>, woke: Time)
    requires !setup.once && Distinct(setup.domains) && ValidWatch(WatchPlan(setup, first))
    requires Sleeps(WatchPlan(setup, first), es) && Faithful(key, initial, es)
    requires After(key, Settled(seen, draw), Replay(key, initial, es), now, out) == Some(second)
    requires Wakes(WatchPlan(setup, second), wake)
    ensures SameAhead(WatchPlan(setup, first), Rested(WatchPlan(setup, first), es, woke),
                      WatchPlan(setup, second), wake)
  {
    RestingIsDurable(key, initial, WatchPlan(setup, first), es);
    SettleKeepsProgress(key, seen, draw, Replay(key, initial, es).value, now, out);
    hide After, Replay, Faithful, WatchFrom, ResumeFrom, ValidWatch, Sleeps, Wakes, Distinct, SameAhead;
    RestartRefines(key, setup, first, initial, es, second, wake, woke);
  }

  lemma SettleKeepsProgress(key: Key, seen: seq<Instance>, draw: Option<seq<Byte>>, r: Record, now: Time, out: Outcome)
    ensures var settled := After(key, Settled(seen, draw), Some(r), now, out);
      settled.Some? && KeepsProgress(Some(r), settled.value)
  {
    hide Verdict, NewAttempt, Valid;
  }
}
