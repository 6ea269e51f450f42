/** How many probes one whole run may send between two sleeps. Within one watch there are at most as many as domains,
    but a lost capacity race enters the watch again without a sleep. */
module Rounds {
  import opened Basics
  import opened Reconcile
  import opened State
  import opened Events
  import opened LaunchSpec
  import opened WatchSpec
  import opened RunnerSpec
  import opened Watch

  /** What one process does in one run with `setup`, up to some point. */
  predicate SingleRun(setup: Setup, es: seq<Event>) {
    && RunAfter(es).Some? && es != [] && es[0].Discovered? && es[0].setup == setup
    && forall i | 0 < i < |es| :: !es[i].Discovered?
  }

  /** A launch attempt that ended for lack of capacity. */
  predicate Loses(e: Event) {
    || (e.Launched? && e.answer.kind == OutOfCapacity)
    || (e.Looked? && e.look == LookFailed(Some(OutOfCapacity)))
  }

  /** Lost capacity races since the last sleep, or since the start. */
  function LostSinceSleep(es: seq<Event>): nat {
    if es == [] then 0
    else if es[|es| - 1].Slept? then 0
    else LostSinceSleep(es[..|es| - 1]) + (if Loses(es[|es| - 1]) then 1 else 0)
  }

  function NextSince(since: nat, e: Event): nat {
    if e.Slept? then 0 else if e.Probed? then since + 1 else since
  }

  function NextLost(lost: nat, e: Event): nat {
    if e.Slept? then 0 else if Loses(e) then lost + 1 else lost
  }

  /** Probes that rounds of `n` allow after `lost` lost races. */
  function Full(n: nat, lost: nat): nat {
    n * lost
  }

  predicate Watches(setup: Setup, watch: WatchInput) {
    watch.domains == setup.domains && watch.once == setup.once && (ValidWatch(watch) <==> Operable(setup))
  }

  /** The probes of the current watch, given those before it. */
  predicate WatchOk(watch: WatchInput, w: WatchPc, since: nat, before: nat) {
    var n := |watch.domains|;
    if w.Watched? then since <= before + n
    else if watch.once then
      match w
      case Probing(st) => since < n && 0 <= st.nextAD < n && (StartDomain(watch) + since) % n == st.nextAD
      case Storing(_, Return(_)) => since <= n
      case _ => false
    else
      match w
      case Probing(st) => 0 <= st.nextAD < n && since <= before + st.nextAD
      case Waking(st) => 0 <= st.nextAD < n && since <= before
      case Measuring(st) => 0 <= st.nextAD < n && since <= before
      case Dozing(st, _) => 0 <= st.nextAD < n && since <= before
      case Storing(st, Return(_)) => since <= before + n
      case _ => 0 <= w.st.nextAD < n && since <= before + n
  }

  /** The bound by position: a new watch may only begin when all earlier probes are covered by lost races. */
  predicate RoundsOk(setup: Setup, pc: Pc, since: nat, lost: nat) {
    var n := |setup.domains|;
    && since <= Full(n, lost) + n
    && (setup.once ==> since <= n)
    && (!Operable(setup) || !Usable(setup.key) ==> since == 0)
    && match pc
       case Observed(s, _) => s == setup && since == 0
       case Holding(s, _) => s == setup && since == 0
       case Chosen(s, _) => s == setup && Usable(s.key) && since <= Full(n, lost) && (s.once ==> since == 0)
       case Watching(s, _, watch, w) =>
         && s == setup && Usable(s.key) && Watches(setup, watch) && WatchOk(watch, w, since, Full(n, lost))
         && (!ValidWatch(watch) ==> w.Watched?)
       case Launching(s, _, _, l) => s == setup && FailsOtherwise(l) && (l == CAPACITY_LOST ==> since <= Full(n, lost))
       case _ => true
  }

  lemma FullGrows(n: nat, lost: nat)
    ensures Full(n, lost + 1) == Full(n, lost) + n && Full(n, 0) == 0
  {
  }

  lemma EnterOk(setup: Setup, r: Record, since: nat, before: nat)
    requires since <= before && (setup.once ==> since == 0)
    ensures var watch := WatchPlan(setup, r);
      && Watches(setup, watch) && WatchOk(watch, WatchStart(watch), since, before)
      && (!ValidWatch(watch) ==> WatchStart(watch).Watched?)
  {
    var watch := WatchPlan(setup, r);
    if ValidWatch(watch) {
      ModUnique(StartDomain(watch), |watch.domains|, 0, StartDomain(watch));
    }
    hide Cursor, StatusOf;
  }

  lemma WatchRound(watch: WatchInput, w: WatchPc, e: Event, since: nat, before: nat)
    requires ValidWatch(watch) && WatchNext(watch, w, e).Some? && WatchOk(watch, w, since, before)
    ensures WatchOk(watch, WatchNext(watch, w, e).value, NextSince(since, e), if e.Slept? then 0 else before)
    ensures !Loses(e)
  {
    if w.Probing? {
      var n := |watch.domains|;
      NextTurn(w.st.nextAD, n);
      if watch.once {
        ModSucc(StartDomain(watch) + since, n);
        FullTurn(StartDomain(watch), since + 1, n);
      }
    }
    hide DelayFor, Effective, ValidWatch;
  }

  /** A failure that is about to be stored is never one of capacity. */
  predicate FailsOtherwise(l: LaunchPc) {
    l.Failing? ==> l.kind != Some(OutOfCapacity)
  }

  lemma LaunchRound(launch: LaunchInput, l: LaunchPc, e: Event)
    requires LaunchNext(launch, l, e).Some? && FailsOtherwise(l)
    ensures !e.Probed? && FailsOtherwise(LaunchNext(launch, l, e).value)
    ensures LaunchNext(launch, l, e).value == CAPACITY_LOST ==> Loses(e)
  {
    hide Capped;
  }

  lemma RoundsStep(setup: Setup, pc: Pc, e: Event, since: nat, lost: nat)
    requires RoundsOk(setup, pc, since, lost) && !pc.Idle? && Next(pc, e).Some?
    ensures RoundsOk(setup, Next(pc, e).value, NextSince(since, e), NextLost(lost, e))
  {
    var n := |setup.domains|;
    FullGrows(n, lost);
    FullGrows(n, 0);
    match pc
    case Watching(s, d, watch, w) => WatchingStep(setup, pc, e, since, lost);
    case Launching(s, d, launch, l) => LaunchingStep(setup, pc, e, since, lost);
    case Holding(s, seen) => HoldingStep(setup, pc, e, since, lost);
    case Chosen(s, d) =>
      if e.Resumed? { EnterOk(setup, e.record, since, Full(n, lost)); }
      StartNotFailing(LaunchPlan(s, d));
      hide Watches, WatchOk, WatchPlan, WatchStart, LaunchStart, Full, Usable, Operable, ValidWatch;
    case _ =>
  }

  lemma StartNotFailing(launch: LaunchInput)
    ensures FailsOtherwise(LaunchStart(launch)) && LaunchStart(launch) != CAPACITY_LOST
  {
  }

  lemma HoldingStep(setup: Setup, pc: Pc, e: Event, since: nat, lost: nat)
    requires RoundsOk(setup, pc, since, lost) && pc.Holding? && Next(pc, e).Some?
    ensures RoundsOk(setup, Next(pc, e).value, NextSince(since, e), NextLost(lost, e))
  {
    if e.Saved? && e.out.ok {
      SavedIsUsable(setup.key, e);
    }
    hide Verdict, Feasible, Usable, Operable, Full;
  }

  /** Nothing is ever saved under a blank account or target. */
  lemma SavedIsUsable(key: Key, e: Event)
    requires e.Saved? && Feasible(key, e.write, e.before, e.now, e.out) && e.out.ok
    ensures Usable(key)
  {
    hide Change, Blank;
  }

  lemma WatchingStep(setup: Setup, pc: Pc, e: Event, since: nat, lost: nat)
    requires RoundsOk(setup, pc, since, lost) && pc.Watching? && Next(pc, e).Some?
    ensures RoundsOk(setup, Next(pc, e).value, NextSince(since, e), NextLost(lost, e))
  {
    var n := |setup.domains|;
    FullGrows(n, lost);
    FullGrows(n, 0);
    StartNotFailing(LaunchPlan(pc.setup, pc.d));
    if !pc.w.Watched? && e != Exited(false, "") {
      WatchRound(pc.watch, pc.w, e, since, Full(n, lost));
      WatchBound(pc.watch, WatchNext(pc.watch, pc.w, e).value, NextSince(since, e),
                 if e.Slept? then 0 else Full(n, lost));
    }
    hide WatchNext, WatchOk, Full, Usable, Operable, ValidWatch, LaunchStart, LaunchPlan, Feasible;
  }

  lemma WatchBound(watch: WatchInput, w: WatchPc, since: nat, before: nat)
    requires ValidWatch(watch) && WatchOk(watch, w, since, before)
    ensures since <= before + |watch.domains|
    ensures watch.once && before == 0 ==> since <= |watch.domains|
  {
  }

  lemma LaunchingStep(setup: Setup, pc: Pc, e: Event, since: nat, lost: nat)
    requires RoundsOk(setup, pc, since, lost) && pc.Launching? && Next(pc, e).Some?
    ensures RoundsOk(setup, Next(pc, e).value, NextSince(since, e), NextLost(lost, e))
  {
    var n := |setup.domains|;
    FullGrows(n, lost);
    FullGrows(n, 0);
    if !pc.l.Done? && e != Exited(false, "") {
      LaunchRound(pc.launch, pc.l, e);
    } else if e.Saved? && e.out.ok && Next(pc, e).value.Chosen? {
      SavedIsUsable(setup.key, e);
    }
    hide LaunchNext, Full, Usable, Operable, Feasible, NewAttempt;
  }

  lemma {:induction false} RoundsHold(setup: Setup, es: seq<Event>)
    requires SingleRun(setup, es)
    ensures RoundsOk(setup, RunAfter(es).value, SinceSleep(es), LostSinceSleep(es))
  {
    var before, e := es[..|es| - 1], es[|es| - 1];
    if before == [] {
      FullGrows(|setup.domains|, 0);
      FirstEvent(es);
    } else {
      assert before[0] == es[0];
      RoundsHold(setup, before);
      var pc := RunAfter(before).value;
      assert Next(pc, e).Some?;
      if pc.Idle? { IdleOnlyDiscovers(e); }
      hide *;
      RoundsStep(setup, pc, e, SinceSleep(before), LostSinceSleep(before));
      CountedSoFar(es);
    }
  }

  lemma FirstEvent(es: seq<Event>)
    requires |es| == 1 && es[0].Discovered?
    ensures RunAfter(es) == Some(Observed(es[0].setup, es[0].seen)) && SinceSleep(es) == 0 && LostSinceSleep(es) == 0
  {
    var e := es[0];
    DiscoveryOpens(e);
    NothingYet();
    hide Next, RunAfter, SinceSleep, LostSinceSleep, Loses;
    RunSnoc([], e);
    assert es == [] + [e] && es[..|es| - 1] == [];
    CountedSoFar(es);
  }

  lemma NothingYet()
    ensures RunAfter([]) == Some(Idle) && SinceSleep([]) == 0 && LostSinceSleep([]) == 0
  {
  }

  lemma DiscoveryOpens(e: Event)
    requires e.Discovered?
    ensures Next(Idle, e) == Some(Observed(e.setup, e.seen)) && !Loses(e)
  {
  }

  lemma IdleOnlyDiscovers(e: Event)
    requires Next(Idle, e).Some?
    ensures e.Discovered?
  {
  }

  lemma CountedSoFar(es: seq<Event>)
    requires es != []
    ensures RunAfter(es[..|es| - 1]).Some? && Next(RunAfter(es[..|es| - 1]).value, es[|es| - 1]).Some? ==>
      RunAfter(es) == Next(RunAfter(es[..|es| - 1]).value, es[|es| - 1])
    ensures SinceSleep(es) == NextSince(SinceSleep(es[..|es| - 1]), es[|es| - 1])
    ensures LostSinceSleep(es) == NextLost(LostSinceSleep(es[..|es| - 1]), es[|es| - 1])
  {
    hide Next;
  }

  /** In every single run, whatever the environment answers, the probes since the last sleep are at most the domains
      times one more than the capacity races lost since then; and at most the domains in one-shot mode. */
  lemma ProbesAreBounded(setup: Setup, es: seq<Event>)
    requires SingleRun(setup, es)
    ensures SinceSleep(es) <= |setup.domains| * (1 + LostSinceSleep(es))
    ensures setup.once || !Operable(setup) || !Usable(setup.key) ==> SinceSleep(es) <= |setup.domains|
  {
    RoundsHold(setup, es);
    Unfold(setup, RunAfter(es).value, SinceSleep(es), LostSinceSleep(es));
    hide *;
  }

  lemma Unfold(setup: Setup, pc: Pc, since: nat, lost: nat)
    requires RoundsOk(setup, pc, since, lost)
    ensures since <= |setup.domains| * (1 + lost)
    ensures setup.once || !Operable(setup) || !Usable(setup.key) ==> since <= |setup.domains|
  {
    FullGrows(|setup.domains|, lost);
    hide Usable, Operable;
  }

  // --- when one watch's bound holds of the whole run -----------------------------------------------------------------

  /** The token an event draws. */
  function DrawnIn(key: Key, e: Event): seq<string> {
    if e.Saved? && DrawsToken(key, e.write, e.before, e.now) then
      var a := NewAttempt(e.write.draw, e.now, ATTEMPT_VALIDITY);
      if a.Some? then [a.value.token] else []
    else []
  }

  function Drawn(key: Key, es: seq<Event>): seq<string> {
    if es == [] then [] else Drawn(key, es[..|es| - 1]) + DrawnIn(key, es[|es| - 1])
  }

  predicate AllDistinct(s: seq<string>) {
    forall i, j | 0 <= i < j < |s| :: s[i] != s[j]
  }

  /** No token is drawn twice, or is already in the record. */
  predicate FreshDraws(key: Key, initial: Option<Record>, es: seq<Event>) {
    AllDistinct(Drawn(key, es)) && (initial.Some? ==> initial.value.token !in Drawn(key, es))
  }

  /** Every run of this configuration, in every environment, sends at most one probe per domain between two sleeps. */
  ghost predicate KeepsRounds(setup: Setup) {
    forall initial, es | SingleRun(setup, es) && Faithful(setup.key, initial, es) && Timed(es)
                         && FreshDraws(setup.key, initial, es) ::
      SinceSleep(es) <= |setup.domains|
  }

  /** A run that has not slept yet, has told the truth and is at `pc`, leaving the record `r`. */
  datatype Moment = Moment(pc: Pc, r: Option<Record>, since: nat, drawn: seq<string>)

  predicate Awake(setup: Setup, initial: Option<Record>, es: seq<Event>, w: Moment) {
    && SingleRun(setup, es) && RunAfter(es) == Some(w.pc) && SinceSleep(es) == w.since
    && Faithful(setup.key, initial, es) && Replay(setup.key, initial, es) == w.r && Timed(es) && Latest(es) == 0
    && Drawn(setup.key, es) == w.drawn
  }

  predicate Timeless(e: Event) {
    !e.Discovered? && !e.Slept? && !e.Clock? && (e.Probed? ==> e.at == 0)
  }

  lemma AwakeStep(setup: Setup, initial: Option<Record>, es: seq<Event>, w: Moment, e: Event, pc: Pc, r: Option<Record>,
                  drawn: seq<string>)
    requires Awake(setup, initial, es, w) && Next(w.pc, e) == Some(pc) && Reports(setup.key, w.r, e) && Timeless(e)
    requires Effect(setup.key, w.r, e) == r && DrawnIn(setup.key, e) == drawn
    ensures Awake(setup, initial, es + [e], Moment(pc, r, NextSince(w.since, e), w.drawn + drawn))
  {
    RunSnoc(es, e);
    ReplaySnoc(setup.key, initial, es, e);
    TimedSnoc(es, e);
    assert (es + [e])[..|es + [e]| - 1] == es;
    CountedSoFar(es + [e]);
    hide RunAfter, Next, Reports, Effect, Replay, Faithful, Timed, Latest, SinceSleep, LostSinceSleep, DrawnIn;
  }

  /** An event that leaves the record alone and draws nothing. */
  lemma PlainStep(setup: Setup, initial: Option<Record>, es: seq<Event>, w: Moment, e: Event, pc: Pc)
    requires Awake(setup, initial, es, w) && Next(w.pc, e) == Some(pc) && Timeless(e) && !e.Saved?
    requires e.Resumed? ==> w.r == Some(e.record)
    ensures Awake(setup, initial, es + [e], w.(pc := pc, since := NextSince(w.since, e)))
  {
    hide Awake, Next;
    AwakeStep(setup, initial, es, w, e, pc, w.r, []);
    assert w.drawn + [] == w.drawn;
  }

  /** The record allows a probe at once. */
  predicate Ready(key: Key, r: Record) {
    Wellformed(key, r) && r.nextAttempt == 0
  }

  const DONE := Outcome(true, true)

  lemma Entering(setup: Setup, d: Decision, r: Record) returns (plan: WatchInput, st: Progress)
    requires Operable(setup) && r.nextAttempt == 0 && CreateSafe(d.kind)
    ensures plan.domains == setup.domains && !plan.once == !setup.once && 0 <= st.nextAD < |plan.domains|
    ensures r.selectedAD == setup.domains[|setup.domains| - 1] ==> st.nextAD == 0
    ensures Next(Chosen(setup, d), Resumed(r)) == Some(Watching(setup, d, plan, Probing(st)))
  {
    plan := WatchPlan(setup, r);
    st := plan.resume.(nextAD := StartDomain(plan));
    var n := |setup.domains|;
    ModUnique(n, n, 1, 0);
    assert r.selectedAD == setup.domains[n - 1] ==> Cursor(setup.domains, n, r.selectedAD) == 0;
    hide Cursor, StatusOf;
  }

  lemma Missing(setup: Setup, d: Decision, plan: WatchInput, st: Progress) returns (st': Progress)
    requires !plan.once && 0 <= st.nextAD < |plan.domains| - 1
    ensures st'.nextAD == st.nextAD + 1
    ensures var e := Probed(plan.domains[st.nextAD], ProbeAnswer(Unavailable, 0, false, false), false, 0);
      Next(Watching(setup, d, plan, Probing(st)), e) == Some(Watching(setup, d, plan, Probing(st')))
  {
    NextTurn(st.nextAD, |plan.domains|);
    st' := st.(lastAD := plan.domains[st.nextAD], status := Unavailable, nextAD := st.nextAD + 1);
  }

  lemma FindingCapacity(setup: Setup, d: Decision, plan: WatchInput, st: Progress, found: Progress)
    requires 0 <= st.nextAD < |plan.domains|
    requires found == st.(lastAD := plan.domains[st.nextAD], status := Available, nextAttempt := 0)
    ensures var domain := plan.domains[st.nextAD];
      Next(Watching(setup, d, plan, Probing(st)), Probed(domain, ProbeAnswer(Available, 0, false, false), false, 0))
      == Some(Watching(setup, d, plan, Storing(found, Return(Placement(Available, domain)))))
  {
  }

  lemma StoringCapacity(setup: Setup, d: Decision, plan: WatchInput, found: Progress, domain: string, r: Record)
    returns (r': Record)
    requires Ready(setup.key, r) && found.nextAttempt == 0
    ensures Ready(setup.key, r')
    ensures var e := Saved(Progressed(found), Some(r), 1, DONE); var placed := Placement(Available, domain);
      && Next(Watching(setup, d, plan, Storing(found, Return(placed))), e)
         == Some(Watching(setup, d, plan, Watched(placed)))
      && Reports(setup.key, Some(r), e) && Effect(setup.key, Some(r), e) == Some(r') && DrawnIn(setup.key, e) == []
  {
    r' := Change(setup.key, Progressed(found), Some(r), 1).value;
    hide Blank, Complete;
  }

  lemma Placing(setup: Setup, d: Decision, plan: WatchInput, domain: string)
    requires Operable(setup) && d.instanceID == "" && !setup.once
    ensures var launch := LaunchPlan(setup, d);
      && Next(Watching(setup, d, plan, Watched(Placement(Available, domain))), Placed(""))
         == Some(Launching(setup, d, launch, Requesting(0)))
      && Next(Launching(setup, d, launch, Requesting(0)),
              Launched(launch.request, LaunchAnswer(OutOfCapacity, "", 0, false), false))
         == Some(Launching(setup, d, launch, CAPACITY_LOST))
  {
  }

  lemma Rotating(setup: Setup, d: Decision, launch: LaunchInput, draw: seq<Byte>, r: Record)
    returns (d': Decision, r': Record)
    requires Ready(setup.key, r) && CreateSafe(d.kind) && d.instanceID == "" && !setup.once && |draw| == 32
    ensures Ready(setup.key, r') && CreateSafe(d'.kind) && d'.instanceID == ""
    ensures var e := Saved(Rotated(Some(draw)), Some(r), 1, DONE);
      && Next(Launching(setup, d, launch, CAPACITY_LOST), e) == Some(Chosen(setup, d'))
      && Reports(setup.key, Some(r), e) && Effect(setup.key, Some(r), e) == Some(r')
      && DrawnIn(setup.key, e) == [Hex(draw)]
  {
    var attempt := NewAttempt(Some(draw), 1, ATTEMPT_VALIDITY);
    NewAttemptIsFresh(Some(draw), Some(draw), 1, 1);
    assert draw[..32] == draw;
    d' := d.(attempt := attempt);
    r' := Change(setup.key, Rotated(Some(draw)), Some(r), 1).value;
    hide Blank, Hex;
  }

  /** The run is about to enter the watch. */
  predicate Waits(setup: Setup, initial: Option<Record>, es: seq<Event>, d: Decision, r: Record, since: nat,
                  drawn: seq<string>) {
    && Awake(setup, initial, es, Moment(Chosen(setup, d), Some(r), since, drawn))
    && Ready(setup.key, r) && CreateSafe(d.kind) && d.instanceID == ""
  }

  /** The run is in the watch, about to probe. */
  predicate AtProbe(setup: Setup, initial: Option<Record>, es: seq<Event>, d: Decision, r: Record, since: nat,
                     drawn: seq<string>, plan: WatchInput, st: Progress) {
    && Awake(setup, initial, es, Moment(Watching(setup, d, plan, Probing(st)), Some(r), since, drawn))
    && Ready(setup.key, r) && CreateSafe(d.kind) && d.instanceID == ""
    && plan.domains == setup.domains && !plan.once && 0 <= st.nextAD < |plan.domains|
  }

  lemma EnterRound(setup: Setup, initial: Option<Record>, es: seq<Event>, d: Decision, r: Record, since: nat,
                    drawn: seq<string>)
    returns (es': seq<Event>, plan: WatchInput, st: Progress)
    requires !setup.once && Operable(setup) && Waits(setup, initial, es, d, r, since, drawn)
    ensures AtProbe(setup, initial, es', d, r, since, drawn, plan, st)
    ensures r.selectedAD == setup.domains[|setup.domains| - 1] ==> st.nextAD == 0
  {
    plan, st := Entering(setup, d, r);
    hide Next, Operable, Ready, Awake;
    var w := Moment(Chosen(setup, d), Some(r), since, drawn);
    PlainStep(setup, initial, es, w, Resumed(r), Watching(setup, d, plan, Probing(st)));
    es' := es + [Resumed(r)];
  }

  /** Probes that find nothing lead to the last domain, without a sleep. */
  lemma {:induction false} Scan(setup: Setup, initial: Option<Record>, es: seq<Event>, d: Decision, r: Record,
                                since: nat, drawn: seq<string>, plan: WatchInput, st: Progress)
    returns (es': seq<Event>, st': Progress)
    requires AtProbe(setup, initial, es, d, r, since, drawn, plan, st)
    ensures AtProbe(setup, initial, es', d, r, since + |plan.domains| - 1 - st.nextAD, drawn, plan, st')
    decreases |plan.domains| - st.nextAD
  {
    if st.nextAD == |plan.domains| - 1 {
      es', st' := es, st;
    } else {
      st' := Missing(setup, d, plan, st);
      var e := Probed(plan.domains[st.nextAD], ProbeAnswer(Unavailable, 0, false, false), false, 0);
      var w := Moment(Watching(setup, d, plan, Probing(st)), Some(r), since, drawn);
      hide Next, Ready, Awake;
      PlainStep(setup, initial, es, w, e, Watching(setup, d, plan, Probing(st')));
      es', st' := Scan(setup, initial, es + [e], d, r, since + 1, drawn, plan, st');
    }
  }

  /** A probe finds capacity, and it is stored. */
  lemma FindAndStore(setup: Setup, initial: Option<Record>, es: seq<Event>, d: Decision, r: Record, since: nat,
                     drawn: seq<string>, plan: WatchInput, st: Progress)
    returns (es': seq<Event>, r': Record)
    requires AtProbe(setup, initial, es, d, r, since, drawn, plan, st)
    ensures Ready(setup.key, r')
    ensures Awake(setup, initial, es', Moment(
      Watching(setup, d, plan, Watched(Placement(Available, plan.domains[st.nextAD]))), Some(r'), since + 1, drawn))
  {
    var domain := plan.domains[st.nextAD];
    var found := st.(lastAD := domain, status := Available, nextAttempt := 0);
    FindingCapacity(setup, d, plan, st, found);
    r' := StoringCapacity(setup, d, plan, found, domain, r);
    var placed := Placement(Available, domain);
    var probe := Probed(domain, ProbeAnswer(Available, 0, false, false), false, 0);
    var save := Saved(Progressed(found), Some(r), 1, DONE);
    var w := Moment(Watching(setup, d, plan, Probing(st)), Some(r), since, drawn);
    hide Awake, Next, Ready, Effect, Reports, DrawnIn;
    PlainStep(setup, initial, es, w, probe, Watching(setup, d, plan, Storing(found, Return(placed))));
    es' := es + [probe];
    w := w.(pc := Watching(setup, d, plan, Storing(found, Return(placed))), since := since + 1);
    AwakeStep(setup, initial, es', w, save, Watching(setup, d, plan, Watched(placed)), Some(r'), []);
    assert drawn + [] == drawn;
    es' := es' + [save];
  }

  /** A placement whose launch is lost leads back to where the run was, with the next token, without a sleep. */
  lemma LosePlacement(setup: Setup, initial: Option<Record>, es: seq<Event>, d: Decision, r: Record, since: nat,
                      drawn: seq<string>, plan: WatchInput, domain: string, draw: seq<Byte>)
    returns (es': seq<Event>, d': Decision, r': Record)
    requires Awake(setup, initial, es,
      Moment(Watching(setup, d, plan, Watched(Placement(Available, domain))), Some(r), since, drawn))
    requires !setup.once && Operable(setup) && Ready(setup.key, r) && CreateSafe(d.kind) && d.instanceID == ""
    requires |draw| == 32
    ensures Waits(setup, initial, es', d', r', since, drawn + [Hex(draw)])
  {
    Placing(setup, d, plan, domain);
    var launch := LaunchPlan(setup, d);
    d', r' := Rotating(setup, d, launch, draw, r);
    var lost := Launched(launch.request, LaunchAnswer(OutOfCapacity, "", 0, false), false);
    var rotate := Saved(Rotated(Some(draw)), Some(r), 1, DONE);
    hide Awake, Next, Operable, Ready, LaunchPlan, Effect, Reports, DrawnIn, Hex;
    var w := Moment(Watching(setup, d, plan, Watched(Placement(Available, domain))), Some(r), since, drawn);
    PlainStep(setup, initial, es, w, Placed(""), Launching(setup, d, launch, Requesting(0)));
    es', w := es + [Placed("")], w.(pc := Launching(setup, d, launch, Requesting(0)));
    PlainStep(setup, initial, es', w, lost, Launching(setup, d, launch, CAPACITY_LOST));
    es', w := es' + [lost], w.(pc := Launching(setup, d, launch, CAPACITY_LOST));
    AwakeStep(setup, initial, es', w, rotate, Chosen(setup, d'), Some(r'), [Hex(draw)]);
    es' := es' + [rotate];
  }

  /** One round of probes ends with capacity that the launch loses; the run is back where it was, without a sleep. If
      the round is to be full, it starts at the first domain. */
  lemma LostRound(setup: Setup, initial: Option<Record>, es: seq<Event>, d: Decision, r: Record, since: nat,
                  drawn: seq<string>, draw: seq<Byte>, full: bool)
    returns (es': seq<Event>, d': Decision, r': Record)
    requires !setup.once && Operable(setup) && Waits(setup, initial, es, d, r, since, drawn) && |draw| == 32
    requires full ==> r.selectedAD == setup.domains[|setup.domains| - 1]
    ensures Waits(setup, initial, es', d', r', since + if full then |setup.domains| else 1, drawn + [Hex(draw)])
  {
    hide Awake, Ready, Operable;
    var plan, st;
    es', plan, st := EnterRound(setup, initial, es, d, r, since, drawn);
    var probes := since;
    if full {
      es', st := Scan(setup, initial, es', d, r, since, drawn, plan, st);
      probes := since + |plan.domains| - 1;
    }
    var domain := plan.domains[st.nextAD];
    es', r' := FindAndStore(setup, initial, es', d, r, probes, drawn, plan, st);
    es', d', r' := LosePlacement(setup, initial, es', d, r', probes + 1, drawn, plan, domain, draw);
  }

  // --- such runs -----------------------------------------------------------------------------------------------------

  /** A record without an attempt, whose watch starts at the first domain. */
  function FirstRecord(setup: Setup): Record
    requires setup.domains != []
  {
    Empty(setup.key).(schema := SCHEMA_VERSION, updatedAt := 1, selectedAD := setup.domains[|setup.domains| - 1])
  }

  /** The run up to its first watch. */
  lemma FirstRound(setup: Setup, draw: seq<Byte>) returns (es: seq<Event>, d: Decision, r: Record)
    requires Usable(setup.key) && |draw| == 32 && setup.domains != []
    ensures Waits(setup, Some(FirstRecord(setup)), es, d, r, 0, [Hex(draw)])
    ensures r.selectedAD == setup.domains[|setup.domains| - 1]
  {
    var initial := Some(FirstRecord(setup));
    var e := Saved(Settled([], Some(draw)), initial, 1, DONE);
    d, r := Deciding(setup, draw);
    hide Feasible, Effect, Next, Ready, Usable, Awake, Reports, DrawnIn, Hex, FirstRecord;
    FirstAwake(setup, initial);
    GuardedNext(setup);
    es := [Event.Discovered(setup, [])];
    var w := Moment(Observed(setup, []), initial, 0, []);
    PlainStep(setup, initial, es, w, Guarded(true), Holding(setup, []));
    es, w := es + [Guarded(true)], w.(pc := Holding(setup, []));
    AwakeStep(setup, initial, es, w, e, Chosen(setup, d), Some(r), [Hex(draw)]);
    assert [] + [Hex(draw)] == [Hex(draw)];
    es := es + [e];
  }

  lemma GuardedNext(setup: Setup)
    ensures Next(Observed(setup, []), Guarded(true)) == Some(Holding(setup, []))
  {
  }

  lemma FirstAwake(setup: Setup, initial: Option<Record>)
    ensures Awake(setup, initial, [Event.Discovered(setup, [])], Moment(Observed(setup, []), initial, 0, []))
  {
    var e := Event.Discovered(setup, []);
    FirstEvent([e]);
    ReplaySnoc(setup.key, initial, [], e);
    TimedSnoc([], e);
    assert [] + [e] == [e];
    assert [e][..|[e]| - 1] == [] && Drawn(setup.key, []) == [] && DrawnIn(setup.key, e) == [];
    assert Faithful(setup.key, initial, []) && Replay(setup.key, initial, []) == initial;
    assert Timed([]) && Latest([]) == 0;
    hide RunAfter, Next, SinceSleep;
  }

  lemma Deciding(setup: Setup, draw: seq<Byte>) returns (d: Decision, r: Record)
    requires Usable(setup.key) && |draw| == 32 && setup.domains != []
    ensures Ready(setup.key, r) && CreateSafe(d.kind) && d.instanceID == ""
    ensures r.selectedAD == setup.domains[|setup.domains| - 1]
    ensures var initial := Some(FirstRecord(setup)); var e := Saved(Settled([], Some(draw)), initial, 1, DONE);
      && Next(Holding(setup, []), e) == Some(Chosen(setup, d))
      && Reports(setup.key, initial, e) && Effect(setup.key, initial, e) == Some(r)
      && DrawnIn(setup.key, e) == [Hex(draw)]
  {
    var initial := Some(FirstRecord(setup));
    NewAttemptIsFresh(Some(draw), Some(draw), 1, 1);
    assert draw[..32] == draw;
    d := WithDraw(VerdictOn(setup.key, [], initial, 1), Some(draw), 1);
    r := Accept(setup.key, Change(setup.key, Settled([], Some(draw)), initial, 1).value).value;
    hide Blank, NewAttempt, Hex;
  }

  /** The tokens of the first `n` draws. */
  function Tokens(draws: seq<seq<Byte>>, n: nat): (tokens: seq<string>)
    requires n <= |draws|
    ensures |tokens| == n && forall k | 0 <= k < n :: tokens[k] == Hex(draws[k])
  {
    if n == 0 then [] else Tokens(draws, n - 1) + [Hex(draws[n - 1])]
  }

  predicate Draws(draws: seq<seq<Byte>>) {
    && (forall k | 0 <= k < |draws| :: |draws[k]| == 32)
    && (forall i, j | 0 <= i < j < |draws| :: draws[i] != draws[j])
  }

  lemma DrawsAreFresh(setup: Setup, draws: seq<seq<Byte>>)
    requires Draws(draws) && setup.domains != []
    ensures AllDistinct(Tokens(draws, |draws|)) && FirstRecord(setup).token !in Tokens(draws, |draws|)
  {
    forall i, j | 0 <= i < j < |draws|
      ensures Hex(draws[i]) != Hex(draws[j])
    {
      if Hex(draws[i]) == Hex(draws[j]) {
        HexInjective(draws[i], draws[j]);
      }
    }
    forall k | 0 <= k < |draws|
      ensures Hex(draws[k]) != ""
    {
      assert |Hex(draws[k])| == 64;
    }
  }

  lemma DrawOf(draws: seq<seq<Byte>>, k: nat)
    requires Draws(draws) && k < |draws|
    ensures |draws[k]| == 32 && Tokens(draws, k + 1) == Tokens(draws, k) + [Hex(draws[k])]
  {
    hide Hex;
  }

  lemma {:induction false} RoundsWith(setup: Setup, draws: seq<seq<Byte>>, k: nat)
    returns (es: seq<Event>, d: Decision, r: Record)
    requires !setup.once && Operable(setup) && Usable(setup.key) && Draws(draws) && k < |draws| && setup.domains != []
    ensures Waits(setup, Some(FirstRecord(setup)), es, d, r, k, Tokens(draws, k + 1))
  {
    var initial := Some(FirstRecord(setup));
    assert Tokens(draws, 0) == [];
    hide *;
    DrawOf(draws, k);
    if k == 0 {
      es, d, r := FirstRound(setup, draws[0]);
      assert [] + [Hex(draws[0])] == [Hex(draws[0])];
    } else {
      es, d, r := RoundsWith(setup, draws, k - 1);
      es, d, r := LostRound(setup, initial, es, d, r, k - 1, Tokens(draws, k), draws[k], false);
    }
  }

  /** With distinct draws, a truthful run that sends a probe for every draw but the first one, and never sleeps. */
  lemma ManyRounds(setup: Setup, draws: seq<seq<Byte>>) returns (es: seq<Event>)
    requires !setup.once && Operable(setup) && Usable(setup.key) && Draws(draws) && draws != []
    ensures SingleRun(setup, es) && Faithful(setup.key, Some(FirstRecord(setup)), es) && Timed(es)
    ensures FreshDraws(setup.key, Some(FirstRecord(setup)), es) && SinceSleep(es) == |draws| - 1
  {
    var d, r;
    es, d, r := RoundsWith(setup, draws, |draws| - 1);
    FreshSoFar(setup, draws, es, d, r, |draws| - 1);
    hide *;
  }

  lemma FreshSoFar(setup: Setup, draws: seq<seq<Byte>>, es: seq<Event>, d: Decision, r: Record, since: nat)
    requires setup.domains != [] && Draws(draws)
    requires Waits(setup, Some(FirstRecord(setup)), es, d, r, since, Tokens(draws, |draws|))
    ensures FreshDraws(setup.key, Some(FirstRecord(setup)), es)
    ensures SingleRun(setup, es) && Faithful(setup.key, Some(FirstRecord(setup)), es) && Timed(es)
    ensures SinceSleep(es) == since
  {
    DrawsAreFresh(setup, draws);
    hide Drawn, SingleRun, Faithful, Timed, SinceSleep, RunAfter, Replay, Latest, Ready, Tokens;
  }

  /** A full round and one probe more, with three tokens and no sleep. */
  lemma FullRoundAndMore(setup: Setup, draws: seq<seq<Byte>>) returns (es: seq<Event>)
    requires !setup.once && Operable(setup) && Usable(setup.key) && Draws(draws) && |draws| == 3
    ensures SingleRun(setup, es) && Faithful(setup.key, Some(FirstRecord(setup)), es) && Timed(es)
    ensures FreshDraws(setup.key, Some(FirstRecord(setup)), es) && SinceSleep(es) == |setup.domains| + 1
  {
    var initial, n := Some(FirstRecord(setup)), |setup.domains|;
    assert Tokens(draws, 0) == [] && n > 0;
    hide *;
    DrawOf(draws, 0);
    DrawOf(draws, 1);
    DrawOf(draws, 2);
    assert [] + [Hex(draws[0])] == [Hex(draws[0])];
    var d, r;
    es, d, r := FirstRound(setup, draws[0]);
    es, d, r := LostRound(setup, initial, es, d, r, 0, Tokens(draws, 1), draws[1], true);
    es, d, r := LostRound(setup, initial, es, d, r, n, Tokens(draws, 2), draws[2], false);
    FreshSoFar(setup, draws, es, d, r, n + 1);
  }

  lemma ThreeDraws() returns (draws: seq<seq<Byte>>)
    ensures Draws(draws) && |draws| == 3
  {
    var zeros: seq<Byte>, ones: seq<Byte>, twos: seq<Byte> := seq(32, i => 0), seq(32, i => 1), seq(32, i => 2);
    assert zeros[0] != ones[0] && ones[0] != twos[0] && zeros[0] != twos[0];
    draws := [zeros, ones, twos];
  }

  /** At most one probe per domain between two sleeps of a run: this holds of a configuration, in every environment,
      exactly when it is one-shot, or cannot probe at all because an engine refuses it or no record can be saved. */
  lemma RoundsKeptExactly(setup: Setup)
    ensures KeepsRounds(setup) <==> setup.once || !Operable(setup) || !Usable(setup.key)
  {
    if setup.once || !Operable(setup) || !Usable(setup.key) {
      forall initial, es | SingleRun(setup, es) && Faithful(setup.key, initial, es) && Timed(es)
                           && FreshDraws(setup.key, initial, es)
        ensures SinceSleep(es) <= |setup.domains|
      {
        ProbesAreBounded(setup, es);
      }
    } else {
      var draws := ThreeDraws();
      var es := FullRoundAndMore(setup, draws);
      hide SingleRun, Faithful, Timed, FreshDraws, SinceSleep;
      assert SingleRun(setup, es) && Faithful(setup.key, Some(FirstRecord(setup)), es) && Timed(es)
             && FreshDraws(setup.key, Some(FirstRecord(setup)), es);
    }
  }
}
