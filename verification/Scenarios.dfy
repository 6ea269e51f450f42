/** Histories put together move by move: what some processes can do from a given state, on a clock that never goes
    back. */
module Scenarios {
  import opened Basics
  import opened Reconcile
  import opened State
  import opened Events
  import opened LaunchSpec
  import opened WatchSpec
  import opened RunnerSpec
  import opened Watch
  import opened Protocol
  import opened Safety

  /** The clock at the start, and whether all listings must be complete when they are made. */
  datatype Frame = Frame(from: Time, full: bool)

  /** A listing that misses nothing alive at that moment. */
  predicate Lists(key: Key, s: Global, m: Move) {
    m.Act? && m.e.Discovered? ==> SeesLive(key, s, m.e.seen)
  }

  predicate ListsAt(key: Key, h: History, n: nat)
    requires n < |h.moves| < |h.at|
  {
    Lists(key, h.at[n], h.moves[n])
  }

  predicate ListsAll(key: Key, h: History)
    requires |h.moves| < |h.at|
  {
    forall n: nat | n < |h.moves| :: ListsAt(key, h, n)
  }

  /** An informed history from a sound state. */
  predicate Scene(key: Key, f: Frame, h: History) {
    && IsRun(key, h) && InformedRun(key, h) && Inv(key, h.at[0]) && Forward(h.moves, f.from)
    && (f.full ==> ListsAll(key, h))
  }

  /** The state a history ends in. */
  function End(h: History): Global
    requires |h.at| == |h.moves| + 1
  {
    h.at[|h.moves|]
  }

  function Now(f: Frame, h: History): Time {
    ClockOf(h.moves, f.from)
  }

  /** One more move. */
  function Longer(key: Key, h: History, m: Move): History
    requires |h.at| == |h.moves| + 1
  {
    History(h.at + [Apply(key, End(h), m)], h.moves + [m])
  }

  /** A move that may come next. */
  predicate Playable(key: Key, s: Global, t: Time, full: bool, m: Move) {
    Allowed(key, s, m) && Informed(key, s, m) && NotEarlier(t, m) && (full ==> Lists(key, s, m))
  }

  lemma Open(key: Key, f: Frame, s: Global) returns (h: History)
    requires Inv(key, s)
    ensures Scene(key, f, h) && h.at == [s] && End(h) == s && Now(f, h) == f.from
  {
    h := History([s], []);
    hide Inv;
  }

  lemma Play(key: Key, f: Frame, h: History, m: Move)
    requires Scene(key, f, h) && Playable(key, End(h), Now(f, h), f.full, m)
    ensures var h' := Longer(key, h, m);
      && Scene(key, f, h') && h'.at[0] == h.at[0] && End(h') == Apply(key, End(h), m)
      && Inv(key, End(h')) && Now(f, h') == TimeAfter(Now(f, h), m)
  {
    hide Inv, Allowed, Apply, Informed, Lists, NotEarlier, TimeAfter;
    var h' := Longer(key, h, m);
    forall n: nat | n < |h'.moves|
      ensures Took(key, h', n) && InformedAt(key, h', n) && (f.full ==> ListsAt(key, h', n))
    {
      if n < |h.moves| {
        assert Took(key, h, n) && InformedAt(key, h, n);
        if f.full { assert ListsAt(key, h, n); }
      }
    }
    ForwardSnoc(h.moves, f.from, m);
    InvAt(key, h', |h'.moves|);
  }

  /** Processes other than `i` are where they were. */
  predicate Elsewhere(s: Global, s': Global, i: nat) {
    |s'.pcs| == |s.pcs| && forall j | 0 <= j < |s.pcs| && j != i :: s'.pcs[j] == s.pcs[j]
  }

  /** Nothing but the position of `i` and the lock changed. */
  predicate Quiet(s: Global, s': Global, i: nat) {
    s'.record == s.record && s'.older == s.older && s'.cloud == s.cloud && s'.used == s.used && Elsewhere(s, s', i)
  }

  // --- starting ------------------------------------------------------------------------------------------------------

  lemma CrashStep(key: Key, s: Global, t: Time, full: bool, i: nat) returns (m: Move)
    requires i < |s.pcs| && (s.lock == Some(i) || s.lock.None?)
    ensures Playable(key, s, t, full, m) && TimeAfter(t, m) == t
    ensures var s' := Apply(key, s, m); Quiet(s, s', i) && s'.lock.None? && s'.pcs[i] == Idle
  {
    m := Crash(i);
  }

  lemma DiscoverStep(key: Key, s: Global, t: Time, full: bool, i: nat, setup: Setup) returns (m: Move)
    requires i < |s.pcs| && s.lock.None? && s.pcs[i] == Idle && setup.key == key && (full ==> Live(s) == {})
    ensures Playable(key, s, t, full, m) && TimeAfter(t, m) == t
    ensures var s' := Apply(key, s, m); Quiet(s, s', i) && s'.lock.None? && s'.pcs[i] == Observed(setup, [])
  {
    m := Act(i, Event.Discovered(setup, []), None);
  }

  lemma GuardStep(key: Key, s: Global, t: Time, full: bool, i: nat, setup: Setup) returns (m: Move)
    requires i < |s.pcs| && s.lock.None? && s.pcs[i] == Observed(setup, [])
    ensures Playable(key, s, t, full, m) && TimeAfter(t, m) == t
    ensures var s' := Apply(key, s, m); Quiet(s, s', i) && s'.pcs[i] == Holding(setup, [])
  {
    m := Act(i, Guarded(true), None);
  }

  /** A process that may hold the run lock dies, starts again, sees nothing and gets the lock. */
  lemma Restart(key: Key, f: Frame, start: History, i: nat, setup: Setup) returns (h: History)
    requires Scene(key, f, start) && setup.key == key && (f.full ==> Live(End(start)) == {})
    requires i < |End(start).pcs| && (End(start).lock == Some(i) || End(start).lock.None?)
    ensures Scene(key, f, h) && h.at[0] == start.at[0] && Inv(key, End(h)) && Now(f, h) == Now(f, start)
    ensures Quiet(End(start), End(h), i) && End(h).pcs[i] == Holding(setup, [])
  {
    hide Inv, Apply, Playable;
    var crash := CrashStep(key, End(start), Now(f, start), f.full, i);
    Play(key, f, start, crash);
    h := Longer(key, start, crash);
    var discover := DiscoverStep(key, End(h), Now(f, h), f.full, i, setup);
    Play(key, f, h, discover);
    h := Longer(key, h, discover);
    var guard := GuardStep(key, End(h), Now(f, h), f.full, i, setup);
    Play(key, f, h, guard);
    h := Longer(key, h, guard);
  }

  // --- deciding ------------------------------------------------------------------------------------------------------

  /** The position after a stored create-safe decision for `token`. */
  predicate ChosenFor(pc: Pc, setup: Setup, token: string) {
    pc.Chosen? && pc.setup == setup && CreateSafe(pc.d.kind) && pc.d.attempt.Some? && pc.d.attempt.value.token == token
  }

  /** Before the attempt in the record expires, an empty observation leads to its retry. */
  lemma RetryStep(key: Key, s: Global, t: Time, full: bool, i: nat, setup: Setup, now: Time) returns (m: Move)
    requires Inv(key, s) && i < |s.pcs| && s.pcs[i] == Holding(setup, []) && setup.key == key
    requires s.record.Some? && !NoAttempt(s.record.value) && t <= now && 0 < now < s.record.value.attemptValidTo
    ensures Playable(key, s, t, full, m) && TimeAfter(t, m) == now
    ensures var s' := Apply(key, s, m);
      && Elsewhere(s, s', i) && s'.cloud == s.cloud && ChosenFor(s'.pcs[i], setup, s.record.value.token)
  {
    m := Act(i, Saved(Settled([], None), s.record, now, Outcome(true, true)), None);
    var d := VerdictOn(key, [], s.record, now);
    assert d.kind == RetrySameAttempt && d.attempt == LocalOf(s.record.value).attempt;
    hide Verdict;
    assert Feasible(key, Settled([], None), s.record, now, Outcome(true, true));
  }

  /** A decision to draw a token, stored. */
  lemma DrawStep(key: Key, s: Global, t: Time, i: nat, setup: Setup, draw: seq<Byte>, now: Time) returns (m: Move)
    requires Inv(key, s) && i < |s.pcs| && s.pcs[i] == Holding(setup, []) && setup.key == key
    requires Usable(key) && |draw| == 32 && t <= now && 0 < now && Hex(draw) !in s.used
    requires VerdictOn(key, [], s.record, now).kind in {Create, NewAttemptSafe}
    ensures m == Act(i, Saved(Settled([], Some(draw)), s.record, now, Outcome(true, true)), None)
    ensures Allowed(key, s, m) && NotEarlier(t, m) && TimeAfter(t, m) == now
    ensures var s' := Apply(key, s, m);
      && Elsewhere(s, s', i) && s'.cloud == s.cloud && s'.used == s.used + {Hex(draw)}
      && ChosenFor(s'.pcs[i], setup, Hex(draw))
  {
    m := Act(i, Saved(Settled([], Some(draw)), s.record, now, Outcome(true, true)), None);
    assert draw[..32] == draw;
    hide Verdict, Blank, Hex;
    assert Feasible(key, Settled([], Some(draw)), s.record, now, Outcome(true, true));
  }

  // --- watching ------------------------------------------------------------------------------------------------------

  /** The state in which process `i` is at `pc`, otherwise as in `s`. */
  function Moved(s: Global, i: nat, pc: Pc): Global
    requires i < |s.pcs|
  {
    s.(pcs := s.pcs[i := pc])
  }

  lemma ResumeStep(key: Key, s: Global, t: Time, full: bool, i: nat) returns (m: Move, plan: WatchInput)
    requires i < |s.pcs| && s.pcs[i].Chosen? && CreateSafe(s.pcs[i].d.kind) && Operable(s.pcs[i].setup)
    requires s.record.Some?
    ensures plan == WatchPlan(s.pcs[i].setup, s.record.value) && ValidWatch(plan)
    ensures plan.domains == s.pcs[i].setup.domains
    ensures Playable(key, s, t, full, m) && TimeAfter(t, m) == t
    ensures Apply(key, s, m) == Moved(s, i, Watching(s.pcs[i].setup, s.pcs[i].d, plan, WatchStart(plan)))
  {
    plan := WatchPlan(s.pcs[i].setup, s.record.value);
    m := Act(i, Resumed(s.record.value), None);
    hide Cursor, StatusOf;
  }

  lemma WakeStep(key: Key, s: Global, t: Time, full: bool, i: nat, st: Progress) returns (m: Move)
    requires i < |s.pcs| && s.pcs[i].Watching? && s.pcs[i].w == Waking(st)
    ensures Playable(key, s, t, full, m)
    ensures Apply(key, s, m) == Moved(s, i, s.pcs[i].(w := Probing(st)))
  {
    m := Act(i, Clock(if st.nextAttempt > t then st.nextAttempt else t), None);
  }

  function FoundHere(st: Progress, domain: string): Progress {
    st.(lastAD := domain, status := Available, nextAttempt := 0)
  }

  lemma ProbeStep(key: Key, s: Global, t: Time, full: bool, i: nat, st: Progress) returns (m: Move)
    requires i < |s.pcs| && s.pcs[i].Watching? && s.pcs[i].w == Probing(st)
    requires 0 <= st.nextAD < |s.pcs[i].watch.domains|
    ensures Playable(key, s, t, full, m)
    ensures var pc := s.pcs[i]; var domain := pc.watch.domains[st.nextAD];
      Apply(key, s, m) == Moved(s, i, pc.(w := Storing(FoundHere(st, domain), Return(Placement(Available, domain)))))
  {
    var domain := s.pcs[i].watch.domains[st.nextAD];
    m := Act(i, Probed(domain, ProbeAnswer(Available, 0, false, false), false, t), None);
  }

  lemma SaveStep(key: Key, s: Global, t: Time, full: bool, i: nat, st: Progress, result: WatchResult) returns (m: Move)
    requires i < |s.pcs| && s.pcs[i].Watching? && s.pcs[i].w == Storing(st, Return(result)) && s.pcs[i].setup.key == key
    requires s.record.Some? && Wellformed(key, s.record.value)
    ensures Playable(key, s, t, full, m)
    ensures Apply(key, s, m).pcs == s.pcs[i := s.pcs[i].(w := Watched(result))]
    ensures Apply(key, s, m).cloud == s.cloud && Apply(key, s, m).used == s.used
  {
    var now := if t > 0 then t else 1;
    m := Act(i, Saved(Progressed(st), s.record, now, Outcome(true, true)), None);
    assert Feasible(key, Progressed(st), s.record, now, Outcome(true, true));
  }

  lemma PlaceStep(key: Key, s: Global, t: Time, full: bool, i: nat, domain: string) returns (m: Move)
    requires i < |s.pcs| && s.pcs[i].Watching? && s.pcs[i].w == Watched(Placement(Available, domain))
    ensures Playable(key, s, t, full, m)
    ensures Apply(key, s, m) == Moved(s, i, EnterLaunch(s.pcs[i].setup, s.pcs[i].d))
  {
    m := Act(i, Placed(s.pcs[i].d.instanceID), None);
  }

  /** The process is about to make its first launch call; since `s` nothing happened in the cloud, nothing was drawn,
      and nobody else moved. */
  predicate AtLaunch(s': Global, s: Global, i: nat, setup: Setup, d: Decision) {
    && i < |s'.pcs| && s'.pcs[i] == Launching(setup, d, LaunchPlan(setup, d), Requesting(0))
    && s'.cloud == s.cloud && s'.used == s.used && Elsewhere(s, s', i)
  }

  predicate StoresPlacement(s: Global, i: nat, setup: Setup, d: Decision, st: Progress, domain: string) {
    && i < |s.pcs| && s.pcs[i].Watching? && s.pcs[i].setup == setup && s.pcs[i].d == d
    && s.pcs[i].w == Storing(st, Return(Placement(Available, domain)))
  }

  lemma StoreAndPlace(key: Key, f: Frame, start: History, i: nat, setup: Setup, d: Decision, st: Progress,
                      domain: string)
    returns (h: History)
    requires Scene(key, f, start) && StoresPlacement(End(start), i, setup, d, st, domain)
    requires setup.key == key && d.instanceID == "" && Operable(setup)
    requires End(start).record.Some? && Wellformed(key, End(start).record.value)
    ensures Scene(key, f, h) && h.at[0] == start.at[0] && AtLaunch(End(h), End(start), i, setup, d)
  {
    hide Inv, Apply, Playable, Wellformed;
    var save := SaveStep(key, End(start), Now(f, start), f.full, i, st, Placement(Available, domain));
    Play(key, f, start, save);
    h := Longer(key, start, save);
    var place := PlaceStep(key, End(h), Now(f, h), f.full, i, domain);
    Play(key, f, h, place);
    h := Longer(key, h, place);
  }

  predicate ProbesNext(s: Global, i: nat, setup: Setup, d: Decision, plan: WatchInput, st: Progress) {
    i < |s.pcs| && s.pcs[i] == Watching(setup, d, plan, Probing(st)) && 0 <= st.nextAD < |plan.domains|
  }

  lemma ProbeAndPlace(key: Key, f: Frame, start: History, i: nat, setup: Setup, d: Decision, plan: WatchInput,
                      st: Progress) returns (h: History)
    requires Scene(key, f, start) && ProbesNext(End(start), i, setup, d, plan, st)
    requires setup.key == key && d.instanceID == "" && Operable(setup)
    requires End(start).record.Some? && Wellformed(key, End(start).record.value)
    ensures Scene(key, f, h) && h.at[0] == start.at[0] && AtLaunch(End(h), End(start), i, setup, d)
  {
    hide Inv, Apply, Playable, Wellformed;
    var probe := ProbeStep(key, End(start), Now(f, start), f.full, i, st);
    Play(key, f, start, probe);
    h := Longer(key, start, probe);
    var domain := plan.domains[st.nextAD];
    h := StoreAndPlace(key, f, h, i, setup, d, FoundHere(st, domain), domain);
  }

  lemma DecisionHolds(key: Key, s: Global, i: nat)
    requires Inv(key, s) && i < |s.pcs| && s.pcs[i].Chosen? && CreateSafe(s.pcs[i].d.kind)
    ensures s.record.Some? && Wellformed(key, s.record.value)
    ensures s.pcs[i].setup.key == key && s.pcs[i].d.instanceID == ""
  {
    assert PcOk(key, s, s.pcs[i]);
    hide Wellformed;
  }

  /** The watch is entered; nothing else changes. */
  lemma EnterWatching(key: Key, f: Frame, start: History, i: nat, setup: Setup, d: Decision)
    returns (h: History, plan: WatchInput)
    requires Scene(key, f, start) && i < |End(start).pcs| && End(start).pcs[i] == Chosen(setup, d)
    requires CreateSafe(d.kind) && Operable(setup) && End(start).record.Some?
    ensures Scene(key, f, h) && h.at[0] == start.at[0] && ValidWatch(plan)
    ensures End(h) == Moved(End(start), i, Watching(setup, d, plan, WatchStart(plan)))
  {
    hide Inv, Apply, Playable, WatchStart, Operable, ValidWatch;
    var resume;
    resume, plan := ResumeStep(key, End(start), Now(f, start), f.full, i);
    Play(key, f, start, resume);
    h := Longer(key, start, resume);
  }

  /** From a create-safe decision whose attempt is in the record, the process can get to its launch call. */
  lemma ReachLaunch(key: Key, f: Frame, start: History, i: nat) returns (h: History)
    requires Scene(key, f, start) && Inv(key, End(start)) && i < |End(start).pcs| && End(start).pcs[i].Chosen?
    requires CreateSafe(End(start).pcs[i].d.kind) && Operable(End(start).pcs[i].setup)
    ensures Scene(key, f, h) && h.at[0] == start.at[0] && Inv(key, End(h))
    ensures AtLaunch(End(h), End(start), i, End(start).pcs[i].setup, End(start).pcs[i].d)
  {
    var setup, d := End(start).pcs[i].setup, End(start).pcs[i].d;
    DecisionHolds(key, End(start), i);
    hide Inv, Wellformed, WatchStart, Operable, ValidWatch, LaunchPlan, InformedRun, ListsAll, Forward, Took;
    var plan;
    h, plan := EnterWatching(key, f, start, i, setup, d);
    h := WakeAndPlace(key, f, h, i, setup, d, plan);
    SceneInv(key, f, h);
  }

  lemma WakeAndPlace(key: Key, f: Frame, start: History, i: nat, setup: Setup, d: Decision, plan: WatchInput)
    returns (h: History)
    requires Scene(key, f, start) && i < |End(start).pcs| && ValidWatch(plan)
    requires End(start).pcs[i] == Watching(setup, d, plan, WatchStart(plan))
    requires setup.key == key && d.instanceID == "" && Operable(setup)
    requires End(start).record.Some? && Wellformed(key, End(start).record.value)
    ensures Scene(key, f, h) && h.at[0] == start.at[0] && AtLaunch(End(h), End(start), i, setup, d)
  {
    hide Inv, Apply, Playable, Wellformed, WatchStart, Operable, ValidWatch, LaunchPlan;
    hide InformedRun, ListsAll, Forward, TimeAfter, Took;
    var st := WakesOrProbes(plan);
    h := start;
    if WatchStart(plan) == Waking(st) {
      var wake := WakeStep(key, End(h), Now(f, h), f.full, i, st);
      Play(key, f, h, wake);
      h := Longer(key, h, wake);
    }
    h := ProbeAndPlace(key, f, h, i, setup, d, plan, st);
  }

  lemma WakesOrProbes(plan: WatchInput) returns (st: Progress)
    requires ValidWatch(plan)
    ensures 0 <= st.nextAD < |plan.domains| && (WatchStart(plan) == Waking(st) || WatchStart(plan) == Probing(st))
  {
    st := plan.resume.(nextAD := StartDomain(plan));
  }

  lemma SceneInv(key: Key, f: Frame, h: History)
    requires Scene(key, f, h)
    ensures Inv(key, End(h))
  {
    hide Inv;
    InvAt(key, h, |h.moves|);
  }

  // --- launching -----------------------------------------------------------------------------------------------------

  /** A string outside a finite set. */
  lemma {:induction false} Fresh(taken: set<string>) returns (x: string)
    ensures x != "" && forall y | y in taken :: |y| < |x|
    decreases |taken|
  {
    if taken == {} {
      x := "i";
    } else {
      var y :| y in taken;
      var rest := Fresh(taken - {y});
      x := rest + y + "i";
      forall z | z in taken
        ensures |z| < |x|
      {
        if z != y { assert z in taken - {y}; }
      }
    }
  }

  /** A launch call whose answer is lost; `born` is the instance it creates, if it creates one. */
  lemma LaunchStep(key: Key, s: Global, t: Time, full: bool, i: nat, born: Option<string>) returns (m: Move)
    requires i < |s.pcs| && s.pcs[i].Launching? && s.pcs[i].l == Requesting(0)
    requires born.Some? ==> s.pcs[i].launch.request.token !in s.cloud && born.value != "" && born.value !in CloudIds(s)
    ensures Playable(key, s, t, full, m) && Sends(m, s.pcs[i].launch.request.token)
    ensures var s' := Apply(key, s, m);
      && s'.record == s.record && s'.used == s.used && s'.lock == s.lock && Elsewhere(s, s', i)
      && (born.Some? ==> s'.cloud == s.cloud[s.pcs[i].launch.request.token := CloudVm(born.value, true)])
  {
    var request := s.pcs[i].launch.request;
    m := Act(i, Launched(request, LaunchAnswer(Ambiguous, "", 0, true), true), born);
    hide CloudIds;
  }

  lemma LiveAdds(s: Global, s': Global, token: string, id: string)
    requires token !in s.cloud && s'.cloud == s.cloud[token := CloudVm(id, true)]
    ensures Live(s') == Live(s) + {token}
  {
  }

  /** The launch call creates an instance, and its answer is lost. */
  lemma LaunchLost(key: Key, f: Frame, start: History, i: nat) returns (h: History)
    requires Scene(key, f, start) && i < |End(start).pcs|
    requires End(start).pcs[i].Launching? && End(start).pcs[i].l == Requesting(0)
    requires End(start).pcs[i].launch.request.token !in End(start).cloud
    ensures Scene(key, f, h) && h.at[0] == start.at[0] && Inv(key, End(h))
    ensures var s, s' := End(start), End(h);
      && Live(s') == Live(s) + {s.pcs[i].launch.request.token}
      && s'.record == s.record && s'.used == s.used && s'.lock == s.lock && Elsewhere(s, s', i)
  {
    hide Inv, Apply, Playable;
    var id := Fresh(CloudIds(End(start)));
    assert id !in CloudIds(End(start));
    var lost := LaunchStep(key, End(start), Now(f, start), f.full, i, Some(id));
    Play(key, f, start, lost);
    h := Longer(key, start, lost);
    LiveAdds(End(start), End(h), End(start).pcs[i].launch.request.token, id);
  }

  lemma HoldsToken(key: Key, s: Global, i: nat)
    requires Inv(key, s) && i < |s.pcs| && s.pcs[i].Launching? && s.pcs[i].l == Requesting(0)
    ensures s.lock == Some(i) && TokenIs(s.record, s.pcs[i].launch.request.token) && s.pcs[i].launch.request.token != ""
  {
    assert PcOk(key, s, s.pcs[i]);
    hide Wellformed;
  }

  /** From a stored decision for `token`, an instance for `token` can come alive, unnoticed by the process. */
  lemma BringUp(key: Key, f: Frame, start: History, i: nat, setup: Setup, token: string) returns (h: History)
    requires Scene(key, f, start) && Inv(key, End(start)) && i < |End(start).pcs|
    requires ChosenFor(End(start).pcs[i], setup, token) && Operable(setup) && token !in End(start).cloud
    ensures Scene(key, f, h) && h.at[0] == start.at[0] && Inv(key, End(h))
    ensures var s, s' := End(start), End(h);
      && Live(s') == Live(s) + {token} && TokenIs(s'.record, token) && token != ""
      && s'.used == s.used && s'.lock == Some(i) && Elsewhere(s, s', i)
  {
    hide Inv, LaunchStart, Operable;
    h := ReachLaunch(key, f, start, i);
    HoldsToken(key, End(h), i);
    h := LaunchLost(key, f, h, i);
  }

  // --- configurations and draws --------------------------------------------------------------------------------------

  /** Some configuration with which a run can go on. */
  function AnySetup(key: Key): (setup: Setup)
    ensures Operable(setup) && setup.key == key
  {
    Setup(key, false, ["ad"], true, 1, 1, 1, false)
  }

  /** A possible draw. */
  function Bytes(b: Byte): (draw: seq<Byte>)
    ensures |draw| == 32 && draw[0] == b
  {
    seq(32, i => b)
  }

  lemma HexDiffers(a: seq<Byte>, b: seq<Byte>)
    requires a != b
    ensures Hex(a) != Hex(b)
  {
    if Hex(a) == Hex(b) {
      HexInjective(a, b);
    }
  }
}
