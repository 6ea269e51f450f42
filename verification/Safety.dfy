/** The invariant of the protocol, and what it means for whole histories. */
module Safety {
  import opened Basics
  import opened Reconcile
  import opened State
  import opened Events
  import opened LaunchSpec
  import opened WatchSpec
  import opened RunnerSpec
  import opened Protocol
  import Sequel

  // --- one move keeps the invariant ----------------------------------------------------------------------------------

  /** Where a process is when it saves, and that what it saves names only vouched instances. */
  lemma Saver(key: Key, s: Global, i: nat, e: Event)
    requires Inv(key, s) && Allowed(key, s, Act(i, e, None)) && e.Saved?
    ensures HoldsLock(s.pcs[i]) && s.lock == Some(i) && Named(e.write)
    ensures match s.pcs[i]
      case Holding(setup, seen) => e.write.Settled? && e.write.seen == seen
      case Watching(_, _, _, _) => e.write.Progressed?
      case Launching(setup, d, launch, l) =>
        (e.write.Rotated? && l == CAPACITY_LOST && CreateSafe(d.kind)) || e.write.LaunchFailed?
        || (e.write.LaunchAccepted? && e.write.id in s.vouched)
        || (e.write.LaunchFinished? && e.write.vm.id in s.vouched)
      case _ => false
  {
    assert PcOk(key, s, s.pcs[i]);
    assert HoldsLock(s.pcs[i]) ==> s.lock == Some(i);
    hide WatchNext, LaunchNext, Inv, Reports, Contract, Feasible, VerdictOn, Apply;
    match s.pcs[i]
    case Watching(_, _, watch, w) => WatchSaves(watch, w, e);
    case Launching(_, d, launch, l) =>
      if !e.write.Rotated? { LaunchSaves(s, d, launch, l, e); }
    case _ =>
  }

  lemma WatchSaves(watch: WatchInput, w: WatchPc, e: Event)
    requires e.Saved? && (w.Watched? || WatchNext(watch, w, e).Some?)
    ensures !w.Watched? ==> e.write.Progressed?
  {
    hide OnProbe, DelayFor;
  }

  lemma LaunchSaves(s: Global, d: Decision, launch: LaunchInput, l: LaunchPc, e: Event)
    requires e.Saved? && LaunchOk(s, d, launch, l) && LaunchNext(launch, l, e).Some?
    ensures
      || e.write.LaunchFailed?
      || (e.write.LaunchAccepted? && e.write.id != "" && e.write.id in s.vouched)
      || (e.write.LaunchFinished? && e.write.vm.id != "" && e.write.vm.id in s.vouched)
  {
    hide OnLaunch, OnLook, OnGet, OnLookup;
  }

  lemma ActLock(key: Key, s: Global, i: nat, e: Event, born: Option<string>)
    requires Inv(key, s) && Allowed(key, s, Act(i, e, born))
    ensures LockInv(Apply(key, s, Act(i, e, born)))
  {
    var s' := Apply(key, s, Act(i, e, born));
    assert HoldsLock(s.pcs[i]) ==> s.lock == Some(i);
    forall j | 0 <= j < |s'.pcs| && HoldsLock(s'.pcs[j])
      ensures s'.lock == Some(j)
    {
      assert j != i ==> HoldsLock(s.pcs[j]);
      if j == i && e != Guarded(true) {
        assert HoldsLock(s.pcs[i]) && !e.Exited?;
      }
    }
  }

  lemma ActRecord(key: Key, s: Global, i: nat, e: Event, born: Option<string>)
    requires Inv(key, s) && Allowed(key, s, Act(i, e, born))
    ensures RecordInv(key, Apply(key, s, Act(i, e, born)))
  {
    var s' := Apply(key, s, Act(i, e, born));
    if e.Saved? {
      Saver(key, s, i, e);
      SavedRecordOk(key, s, i, e);
    }
    assert s.vouched <= s'.vouched;
    assert forall r | r in s'.older :: r in s.older || r == s.record;
    hide Apply, Allowed, WellformedOption, Effect;
    OlderOk(key, s, s');
  }

  lemma OlderOk(key: Key, s: Global, s': Global)
    requires RecordInv(key, s) && s.vouched <= s'.vouched && forall r | r in s'.older :: r in s.older || r == s.record
    ensures forall r | r in s'.older :: RecordOk(key, s', r)
    ensures RecordOk(key, s', s.record)
  {
    hide WellformedOption;
  }

  lemma SavedRecordOk(key: Key, s: Global, i: nat, e: Event)
    requires Inv(key, s) && Allowed(key, s, Act(i, e, None)) && e.Saved?
    ensures RecordOk(key, Apply(key, s, Act(i, e, None)), Effect(key, s.record, e))
  {
    Saver(key, s, i, e);
    ClientsKeepRecord(key, e.write, s.record, e.now, e.out);
    NamesAfter(key, e.write, s.record, e.now, e.out);
    var pc := s.pcs[i];
    assert PcOk(key, s, pc);
    hide Next, After, Verdict, NewAttempt, Wellformed;
    if e.write.Settled? && VerdictOn(key, e.write.seen, s.record, e.now).kind == AlreadySatisfied {
      AlreadySatisfiedIsNamed(key, e.write.seen, s.record, e.now);
      assert VerdictOn(key, e.write.seen, s.record, e.now).instanceID in OwnedIds(key, pc.seen);
    }
  }

  /** Only tokens in use are stored, and a drawn token is not empty. */
  lemma SavedTokens(key: Key, s: Global, e: Event)
    requires Inv(key, s) && e.Saved? && Reports(key, s.record, e) && Named(e.write)
    ensures "" !in DrawnBy(key, e)
    ensures var after := Effect(key, s.record, e);
      after.Some? && !NoAttempt(after.value) ==> after.value.token in s.used + DrawnBy(key, e)
  {
    ClientsKeepRecord(key, e.write, s.record, e.now, e.out);
    hide After, Verdict, Wellformed, Feasible;
    if DrawsToken(key, e.write, e.before, e.now) && NewAttempt(e.write.draw, e.now, ATTEMPT_VALIDITY).Some? {
      NewAttemptIsFresh(e.write.draw, e.write.draw, e.now, e.now);
    }
  }

  lemma ActTokens(key: Key, s: Global, i: nat, e: Event, born: Option<string>)
    requires Inv(key, s) && Allowed(key, s, Act(i, e, born))
    ensures TokensInv(Apply(key, s, Act(i, e, born)))
  {
    hide Next;
    if e.Saved? {
      Saver(key, s, i, e);
      TokenAfter(key, s, e);
      hide After, Verdict, NewAttempt, Wellformed, Feasible;
      SavedTokens(key, s, e);
    } else if e.Launched? {
      Sender(key, s, i, e, born);
    }
  }

  /** Write-ahead: a launch call carries the token of the record, and no power loss can take it away. */
  lemma Sender(key: Key, s: Global, i: nat, e: Event, born: Option<string>)
    requires Inv(key, s) && Allowed(key, s, Act(i, e, born)) && e.Launched?
    ensures HoldsLock(s.pcs[i]) && s.lock == Some(i)
    ensures s.pcs[i].Launching? && s.pcs[i].l.Requesting? && CreateSafe(s.pcs[i].d.kind)
    ensures e.request == s.pcs[i].launch.request
    ensures e.request.key == key && !Blank(e.request.token) && Durable(s, e.request.token)
    ensures !NoAttempt(s.record.value) && e.request.token in s.used
  {
    assert PcOk(key, s, s.pcs[i]);
    assert HoldsLock(s.pcs[i]) ==> s.lock == Some(i);
    hide WatchNext, OnLaunch, OnLook, OnGet, OnLookup, Reports, Verdict, Apply, LocalOf, Contract;
    assert e.request.token != "";
  }

  lemma ActBlocks(key: Key, s: Global, i: nat, e: Event, born: Option<string>)
    requires Inv(key, s) && Allowed(key, s, Act(i, e, born))
    ensures BlocksInv(Apply(key, s, Act(i, e, born)))
  {
    var s' := Apply(key, s, Act(i, e, born));
    if e.Launched? {
      Sender(key, s, i, e, born);
      hide Next, Contract, Reports;
      LaunchedBlocks(s, s', e.request.token);
    } else if e.Saved? {
      Saver(key, s, i, e);
      TokenAfter(key, s, e);
      hide Next, Effect, Contract, Reports;
      SavedBlocks(s, s');
    }
  }

  /** Another launch of the durable token extends the last block, or begins a new one. */
  lemma LaunchedBlocks(s: Global, s': Global, token: string)
    requires BlocksInv(s) && Durable(s, token)
    requires s'.sent == s.sent + [token] && s'.record == s.record && s'.older == s.older
    ensures BlocksInv(s')
  {
    forall a, b, c | 0 <= a <= b <= c < |s'.sent| && s'.sent[a] == s'.sent[c]
      ensures s'.sent[b] == s'.sent[a]
    {
      if c == |s.sent| && a < c {
        assert s.sent[a] == token;
        assert s.sent[|s.sent| - 1] == token;
      }
    }
  }

  /** A save sends nothing; whatever it puts in the record was the record's token, or was never sent. */
  lemma SavedBlocks(s: Global, s': Global)
    requires BlocksInv(s) && s'.sent == s.sent && forall r | r in s'.older :: r in s.older || r == s.record
    requires s'.record.Some? && s'.record.value.token in s.sent ==> TokenIs(s.record, s'.record.value.token)
    ensures BlocksInv(s')
  {
  }

  /** The record's token after a save: kept, or just drawn. */
  lemma TokenAfter(key: Key, s: Global, e: Event)
    requires Inv(key, s) && e.Saved? && Reports(key, s.record, e) && Named(e.write) && DrawnBy(key, e) !! s.used
    ensures var after := Effect(key, s.record, e);
      && (after.Some? && s.record.Some? ==>
            after.value.token == s.record.value.token || after.value.token in DrawnBy(key, e))
      && (after.Some? && s.record.None? ==> after.value.token == "" || after.value.token in DrawnBy(key, e))
      && (after.None? ==> s.record.None?)
      && (after.Some? && after.value.token in s.sent ==> TokenIs(s.record, after.value.token))
  {
    ClientsKeepRecord(key, e.write, s.record, e.now, e.out);
    var after := Effect(key, s.record, e);
    if after.Some? && after.value.token in s.sent {
      var k :| 0 <= k < |s.sent| && s.sent[k] == after.value.token;
      assert s.sent[k] in s.used;
    }
  }

  lemma FreeOk(key: Key, s: Global, s': Global, pc: Pc)
    requires PcOk(key, s, pc) && !HoldsLock(pc) && s.vouched <= s'.vouched
    ensures PcOk(key, s', pc)
  {
  }

  /** What a position needs survives while record token and out-of-capacity tokens do. */
  lemma StableOk(key: Key, s: Global, s': Global, pc: Pc)
    requires PcOk(key, s, pc) && s.vouched <= s'.vouched && s'.cloud.Keys <= s.cloud.Keys
    requires s.record.Some? ==> TokenIs(s'.record, s.record.value.token)
    requires forall r | r in s'.older :: r in s.older || r == s.record
    ensures PcOk(key, s', pc)
  {
    assert forall token | Durable(s, token) :: Durable(s', token);
  }

  lemma ActPcs(key: Key, s: Global, i: nat, e: Event, born: Option<string>)
    requires Inv(key, s) && Allowed(key, s, Act(i, e, born))
    ensures PcsInv(key, Apply(key, s, Act(i, e, born)))
  {
    var s' := Apply(key, s, Act(i, e, born));
    forall j | 0 <= j < |s'.pcs|
      ensures PcOk(key, s', s'.pcs[j])
    {
      if j == i {
        ActorOk(key, s, i, e, born);
      } else if !HoldsLock(s.pcs[j]) {
        FreeOk(key, s, s', s.pcs[j]);
      } else {
        assert s.lock == Some(j);
        if e.Saved? {
          Saver(key, s, i, e);
        } else if e.Launched? {
          Sender(key, s, i, e, born);
        }
        StableOk(key, s, s', s.pcs[j]);
      }
    }
  }

  lemma ActorOk(key: Key, s: Global, i: nat, e: Event, born: Option<string>)
    requires Inv(key, s) && Allowed(key, s, Act(i, e, born))
    ensures var s' := Apply(key, s, Act(i, e, born)); PcOk(key, s', s'.pcs[i])
  {
    hide OnProbe, DelayFor, LaunchNext, Verdict, NewAttempt, Wellformed, Feasible;
    hide TokensInv, BlocksInv, LockInv, RecordInv;
    match s.pcs[i]
    case Holding(_, _) => SettledOk(key, s, i, e);
    case Chosen(_, _) => ChosenOk(key, s, i, e);
    case Watching(_, _, _, _) => WatchStepOk(key, s, i, e);
    case Launching(_, _, _, _) => LaunchStepOk(key, s, i, e, born);
    case Observed(setup, seen) => assert PcOk(key, s, s.pcs[i]);
    case _ =>
  }

  lemma EnterLaunchOk(key: Key, s: Global, setup: Setup, d: Decision)
    requires DecisionOk(key, s, setup, d) && (CreateSafe(d.kind) || d.instanceID != "")
    ensures PcOk(key, s, EnterLaunch(setup, d))
  {
  }

  lemma ChosenOk(key: Key, s: Global, i: nat, e: Event)
    requires Inv(key, s) && Allowed(key, s, Act(i, e, None)) && s.pcs[i].Chosen?
    ensures var s' := Apply(key, s, Act(i, e, None)); PcOk(key, s', s'.pcs[i])
  {
    var s', pc := Apply(key, s, Act(i, e, None)), s.pcs[i];
    assert PcOk(key, s, pc);
    assert s'.record == s.record && s'.vouched == s.vouched;
    if e.Placed? {
      EnterLaunchOk(key, s', pc.setup, pc.d);
    }
  }

  lemma WatchStepOk(key: Key, s: Global, i: nat, e: Event)
    requires Inv(key, s) && Allowed(key, s, Act(i, e, None)) && s.pcs[i].Watching?
    ensures var s' := Apply(key, s, Act(i, e, None)); PcOk(key, s', s'.pcs[i])
  {
    var s', pc := Apply(key, s, Act(i, e, None)), s.pcs[i];
    assert PcOk(key, s, pc);
    if e.Saved? {
      Saver(key, s, i, e);
      KeptToken(key, s, e);
    }
    assert DecisionOk(key, s', pc.setup, pc.d);
    if e.Placed? {
      EnterLaunchOk(key, s', pc.setup, pc.d);
    }
  }

  lemma KeptToken(key: Key, s: Global, e: Event)
    requires RecordInv(key, s) && e.Saved? && Reports(key, s.record, e) && Named(e.write)
    requires !DrawsToken(key, e.write, e.before, e.now)
    ensures s.record.Some? ==> TokenIs(Effect(key, s.record, e), s.record.value.token)
  {
    ClientsKeepRecord(key, e.write, s.record, e.now, e.out);
  }

  lemma SettledOk(key: Key, s: Global, i: nat, e: Event)
    requires Inv(key, s) && Allowed(key, s, Act(i, e, None)) && s.pcs[i].Holding?
    ensures var s' := Apply(key, s, Act(i, e, None)); PcOk(key, s', s'.pcs[i])
  {
    var s', pc := Apply(key, s, Act(i, e, None)), s.pcs[i];
    assert PcOk(key, s, pc);
    if s'.pcs[i].Chosen? {
      assert e.write.seen == pc.seen && pc.setup.key == key;
      if CreateSafe(s'.pcs[i].d.kind) {
        CreateSafeSettled(key, pc.seen, e.write.draw, s.record, e.now, e.out);
      } else {
        AlreadySatisfiedIsNamed(key, pc.seen, s.record, e.now);
        assert VerdictOn(key, pc.seen, s.record, e.now).instanceID in OwnedIds(key, pc.seen);
      }
    }
  }

  /** A create-safe decision that was stored goes with the attempt in the stored record. */
  lemma CreateSafeSettled(key: Key, seen: seq<Instance>, draw: Option<seq<Byte>>, before: Option<Record>, now: Time,
                          out: Outcome)
    requires Feasible(key, Settled(seen, draw), before, now, out) && out.ok
    requires CreateSafe(VerdictOn(key, seen, before, now).kind)
    ensures var d := WithDraw(VerdictOn(key, seen, before, now), draw, now);
      && d.instanceID == "" && d.attempt.Some? && Complete(d.attempt.value)
      && TokenIs(After(key, Settled(seen, draw), before, now, out), d.attempt.value.token)
  {
    hide Counted, Blank, Valid, NewAttempt;
    var v := VerdictOn(key, seen, before, now);
    if v.kind != RetrySameAttempt {
      NewAttemptIsFresh(draw, draw, now, now);
    }
  }

  lemma LaunchStepOk(key: Key, s: Global, i: nat, e: Event, born: Option<string>)
    requires Inv(key, s) && Allowed(key, s, Act(i, e, born)) && s.pcs[i].Launching?
    ensures var s' := Apply(key, s, Act(i, e, born)); PcOk(key, s', s'.pcs[i])
  {
    hide LaunchNext, WatchNext, Verdict, NewAttempt, Blank, Wellformed, Valid;
    var s' := Apply(key, s, Act(i, e, born));
    var pc := s.pcs[i];
    assert PcOk(key, s, pc);
    if pc.l == CAPACITY_LOST && CreateSafe(pc.d.kind) {
      if e.Saved? && e.out.ok {
        ClientsKeepRecord(key, e.write, s.record, e.now, e.out);
        NewAttemptIsFresh(e.write.draw, e.write.draw, e.now, e.now);
      }
    } else if !pc.l.Done? && e != Exited(false, "") {
      if e.Saved? {
        Saver(key, s, i, e);
        KeptToken(key, s, e);
      }
      assert DecisionOk(key, s', pc.setup, pc.d);
      LaunchNextOk(key, s, s', pc.d, pc.launch, pc.l, e, born);
    }
  }

  lemma LaunchNextOk(key: Key, s: Global, s': Global, d: Decision, launch: LaunchInput, l: LaunchPc, e: Event,
                     born: Option<string>)
    requires LaunchOk(s, d, launch, l) && LaunchNext(launch, l, e).Some? && Contract(key, s, e, born) && TokensInv(s)
    requires s'.vouched == VouchedAfter(key, s, e, born) && s'.cloud == CloudAfter(s, e, born)
    ensures LaunchOk(s', d, launch, LaunchNext(launch, l, e).value)
  {
    if e.Launched? && !e.cancelled {
      var l' := OnLaunch(launch, l.retry, e.answer);
      assert LaunchOk(s', d, launch, l');
    }
  }

  lemma InvStep(key: Key, s: Global, m: Move)
    requires Inv(key, s) && Allowed(key, s, m)
    ensures Inv(key, Apply(key, s, m))
  {
    match m
    case Act(i, e, born) =>
      ActLock(key, s, i, e, born);
      ActPcs(key, s, i, e, born);
      ActTokens(key, s, i, e, born);
      ActRecord(key, s, i, e, born);
      ActBlocks(key, s, i, e, born);
    case Crash(i) =>
      var s' := Apply(key, s, m);
      forall j | 0 <= j < |s'.pcs| && HoldsLock(s'.pcs[j])
        ensures s'.lock == Some(j)
      {
        assert j != i && HoldsLock(s.pcs[j]);
      }
      forall j | 0 <= j < |s'.pcs|
        ensures PcOk(key, s', s'.pcs[j])
      {
        if j != i { StableOk(key, s, s', s.pcs[j]); }
      }
    case PowerLoss(back) => PowerInv(key, s, back);
    case Terminate(token) =>
      var s' := Apply(key, s, m);
      forall j | 0 <= j < |s'.pcs|
        ensures PcOk(key, s', s'.pcs[j])
      {
        StableOk(key, s, s', s.pcs[j]);
      }
  }

  lemma PowerInv(key: Key, s: Global, back: Option<Record>)
    requires Inv(key, s) && Allowed(key, s, PowerLoss(back))
    ensures Inv(key, Apply(key, s, PowerLoss(back)))
  {
    var s' := Apply(key, s, PowerLoss(back));
    assert forall j | 0 <= j < |s'.pcs| :: s'.pcs[j] == Idle;
    hide Wellformed;
  }

  // --- at most one live instance -------------------------------------------------------------------------------------

  lemma NothingSeen(key: Key, s: Global, seen: seq<Instance>)
    requires SeesLive(key, s, seen) && Counted(seen, key.target, key.account) == []
    ensures Live(s) == {}
  {
    forall t | t in Live(s)
      ensures false
    {
      var x :| x in seen && Counts(x, key.target, key.account) && x.id == s.cloud[t].id;
      CountedMember(seen, key.target, key.account, x);
    }
  }

  /** A save that replaces the token does so when nothing is alive. */
  lemma ReplacedWhenNothingLives(key: Key, s: Global, i: nat, e: Event)
    requires Inv(key, s) && LiveInv(s) && Allowed(key, s, Act(i, e, None)) && Informed(key, s, Act(i, e, None))
    requires e.Saved? && DrawsToken(key, e.write, e.before, e.now)
    ensures Live(s) == {}
  {
    hide Next, WatchNext, LaunchNext, After, Feasible, Apply;
    Saver(key, s, i, e);
    var pc := s.pcs[i];
    assert PcOk(key, s, pc);
    if e.write.Settled? {
      if s.record.Some? && !NoAttempt(s.record.value) {
        NothingSeen(key, s, e.write.seen);
      } else {
        assert forall t | t in Live(s) :: TokenIs(s.record, t) && t in s.used;
      }
    } else {
      var token := pc.launch.request.token;
      assert forall t | t in Live(s) :: TokenIs(s.record, t) && t == token;
    }
  }

  lemma LiveStep(key: Key, s: Global, m: Move)
    requires Inv(key, s) && LiveInv(s) && Allowed(key, s, m) && Informed(key, s, m)
    ensures LiveInv(Apply(key, s, m))
  {
    hide Wellformed, NewAttempt, Valid, PcsInv, BlocksInv;
    if m.Act? {
      if m.e.Saved? {
        Saver(key, s, m.i, m.e);
        if DrawsToken(key, m.e.write, m.e.before, m.e.now) {
          ReplacedWhenNothingLives(key, s, m.i, m.e);
          assert forall t | t in s.cloud && s.cloud[t].alive :: t in Live(s);
        } else {
          KeptToken(key, s, m.e);
        }
        hide Next, Effect, Contract, Reports, DrawsToken, Informed;
        var s' := Apply(key, s, m);
        assert forall r | r in s'.older :: r in s.older || r == s.record;
      } else if m.e.Launched? {
        Sender(key, s, m.i, m.e, m.born);
      }
    }
  }

  lemma InitialInv(key: Key, s: Global)
    requires Initial(s)
    ensures Inv(key, s) && LiveInv(s)
  {
  }

  lemma {:induction false} InvAt(key: Key, h: History, n: nat)
    requires IsRun(key, h) && Inv(key, h.at[0]) && n <= |h.moves|
    ensures Inv(key, h.at[n])
  {
    hide Inv, Allowed, Apply;
    if n > 0 {
      InvAt(key, h, n - 1);
      assert Took(key, h, n - 1);
      InvStep(key, h.at[n - 1], h.moves[n - 1]);
    }
  }

  lemma {:induction false} LiveAt(key: Key, h: History, n: nat)
    requires IsRun(key, h) && Inv(key, h.at[0]) && LiveInv(h.at[0]) && n <= |h.moves|
    requires forall k: nat | k < n :: InformedAt(key, h, k)
    ensures LiveInv(h.at[n])
  {
    hide Inv, LiveInv, Allowed, Informed, Apply;
    if n > 0 {
      LiveAt(key, h, n - 1);
      InvAt(key, h, n - 1);
      assert Took(key, h, n - 1) && InformedAt(key, h, n - 1);
      LiveStep(key, h.at[n - 1], h.moves[n - 1]);
    }
  }

  /** Every state of a run from the beginning satisfies the invariant. */
  lemma ReachableInv(key: Key, h: History, n: nat)
    requires Reachable(key, h) && n <= |h.moves|
    ensures Inv(key, h.at[n])
  {
    hide Inv;
    InitialInv(key, h.at[0]);
    InvAt(key, h, n);
  }

  lemma OneLive(s: Global)
    requires LiveInv(s)
    ensures |Live(s)| <= 1
  {
    var token := if s.record.Some? then s.record.value.token else "";
    assert Live(s) <= {token};
    Smaller(Live(s), {token});
  }

  lemma {:induction false} Smaller<T>(a: set<T>, b: set<T>)
    requires a <= b
    ensures |a| <= |b|
    decreases |a|
  {
    if a != {} {
      var x :| x in a;
      Smaller(a - {x}, b - {x});
    }
  }

  /** In every history of any number of processes, crashes, restarts, lost answers, failed or half-failed saves, outside
      terminations and arbitrary clock readings, at most one owned instance is alive, provided that an expired decision
      misses no live one. */
  lemma AtMostOneInstance(key: Key, h: History, n: nat)
    requires Reachable(key, h) && InformedRun(key, h) && n <= |h.moves|
    ensures |Live(h.at[n])| <= 1
  {
    hide Inv;
    InitialInv(key, h.at[0]);
    LiveAt(key, h, n);
    OneLive(h.at[n]);
  }

  /** With observations that may be stale, incomplete or invented, the same holds of every history in which each
      decision finds no record, no attempt, or one that has not expired. */
  lemma SafeUnderAnyObservation(key: Key, h: History, n: nat)
    requires Reachable(key, h) && n <= |h.moves|
    requires forall k: nat | k < |h.moves| :: NotExpired(h.at[k].record, h.moves[k])
    ensures |Live(h.at[n])| <= 1
  {
    forall k: nat | k < |h.moves|
      ensures InformedAt(key, h, k)
    {
      ReachableInv(key, h, k);
      NoExpiredDecision(key, h.at[k], h.moves[k]);
    }
    hide Inv, Informed, NotExpired;
    AtMostOneInstance(key, h, n);
  }

  predicate NotExpired(record: Option<Record>, m: Move) {
    Settling(m) ==> record.None? || NoAttempt(record.value) || m.e.now < record.value.attemptValidTo
  }

  lemma NoExpiredDecision(key: Key, s: Global, m: Move)
    requires Inv(key, s) && NotExpired(s.record, m)
    ensures Informed(key, s, m)
  {
  }

  predicate Settling(m: Move) {
    m.Act? && m.e.Saved? && m.e.write.Settled?
  }

  // --- write-ahead and token retirement ------------------------------------------------------------------------------

  /** At every launch call of every history the request's token is not blank, it is the token of the record and of every
      record that a power loss could bring back, and the calling run decided that creating is safe. */
  lemma WriteAhead(key: Key, h: History, n: nat)
    requires Reachable(key, h) && n < |h.moves| && h.moves[n].Act? && h.moves[n].e.Launched?
    ensures var s, m := h.at[n], h.moves[n];
      && m.i < |s.pcs| && s.pcs[m.i].Launching? && CreateSafe(s.pcs[m.i].d.kind)
      && m.e.request.key == key && !Blank(m.e.request.token) && Durable(s, m.e.request.token)
  {
    ReachableInv(key, h, n);
    assert Took(key, h, n);
    hide Inv, Apply;
    Sender(key, h.at[n], h.moves[n].i, h.moves[n].e, h.moves[n].born);
  }

  /** The provider refused a launch with this token for lack of capacity. */
  predicate Refuses(m: Move, token: string) {
    m.Act? && m.e.Launched? && m.e.request.token == token && m.e.answer.kind == OutOfCapacity
  }

  /** A run that has lost a capacity race has been refused, with the token it holds. */
  lemma {:induction false} LostMeansRefused(key: Key, h: History, n: nat, i: nat) returns (k: nat)
    requires Reachable(key, h) && n <= |h.moves| && i < |h.at[n].pcs|
    requires h.at[n].pcs[i].Launching? && h.at[n].pcs[i].l == CAPACITY_LOST
    ensures k < n && Refuses(h.moves[k], h.at[n].pcs[i].launch.request.token)
  {
    if n == 0 {
      assert false;
    }
    ReachableInv(key, h, n - 1);
    assert Took(key, h, n - 1);
    var s, m := h.at[n - 1], h.moves[n - 1];
    hide Inv, Initial, IsRun, Took, Allowed, Apply, Refuses;
    if LostAlready(s, i, h.at[n].pcs[i]) {
      k := LostMeansRefused(key, h, n - 1, i);
    } else {
      LosingStep(key, s, m, i);
      k := n - 1;
    }
  }

  predicate LostAlready(s: Global, i: nat, pc: Pc) {
    i < |s.pcs| && s.pcs[i] == pc
  }

  lemma LosingStep(key: Key, s: Global, m: Move, i: nat)
    requires Inv(key, s) && Allowed(key, s, m) && i < |Apply(key, s, m).pcs|
    requires var pc := Apply(key, s, m).pcs[i]; pc.Launching? && pc.l == CAPACITY_LOST && !LostAlready(s, i, pc)
    ensures Refuses(m, Apply(key, s, m).pcs[i].launch.request.token)
  {
    assert m.Act? && m.i == i;
    assert PcOk(key, s, s.pcs[i]);
    NeverLostAtOnce();
    hide PcsInv, LockInv, TokensInv, RecordInv, BlocksInv, WatchNext, LaunchPlan, Reports;
    match s.pcs[i]
    case Launching(_, _, launch, l) => LosingEvent(s, s.pcs[i].d, launch, l, m.e);
    case _ =>
  }

  lemma NeverLostAtOnce()
    ensures forall launch :: LaunchStart(launch) != CAPACITY_LOST
  {
  }

  lemma LosingEvent(s: Global, d: Decision, launch: LaunchInput, l: LaunchPc, e: Event)
    requires LaunchOk(s, d, launch, l)
    ensures LaunchNext(launch, l, e) == Some(CAPACITY_LOST) ==>
      || (e.Launched? && e.request == launch.request && e.answer.kind == OutOfCapacity)
      || (e.Looked? && e.look == LookFailed(Some(OutOfCapacity)))
  {
    hide Capped;
  }

  /** A token in the record is replaced only after the provider refused it for lack of capacity, when it stands for no
      instance; by a decision that saw no owned instance after the attempt expired; or by a power loss, when it was
      never sent. */
  lemma ReplacedOnlyWhen(key: Key, h: History, n: nat)
    requires Reachable(key, h) && n < |h.moves|
    requires h.at[n].record.Some? && !NoAttempt(h.at[n].record.value)
    requires !TokenIs(h.at[n + 1].record, h.at[n].record.value.token)
    ensures Replaces(key, h.at[n], h.moves[n])
    ensures h.moves[n].Act? && h.moves[n].e.write.Rotated? ==>
      exists k: nat :: k < n && Refuses(h.moves[k], h.at[n].record.value.token)
  {
    ReachableInv(key, h, n);
    assert Took(key, h, n);
    hide Inv, Allowed, Apply, NoAttempt;
    ReplacedStep(key, h.at[n], h.moves[n]);
    if h.moves[n].Act? && h.moves[n].e.write.Rotated? {
      var k := LostMeansRefused(key, h, n, h.moves[n].i);
      HoldsRecordToken(key, h.at[n], h.moves[n].i);
      assert Refuses(h.moves[k], h.at[n].record.value.token);
    }
  }

  lemma HoldsRecordToken(key: Key, s: Global, i: nat)
    requires Inv(key, s) && i < |s.pcs| && s.pcs[i].Launching? && CreateSafe(s.pcs[i].d.kind)
    ensures TokenIs(s.record, s.pcs[i].launch.request.token)
  {
    assert PcOk(key, s, s.pcs[i]);
    hide Wellformed, LockInv, TokensInv, RecordInv, BlocksInv;
  }

  /** The only ways to replace a token. */
  predicate Replaces(key: Key, s: Global, m: Move)
    requires s.record.Some?
  {
    if m.PowerLoss? then m.back in s.older && s.record.value.token !in s.sent
    else
      m.Act? && m.e.Saved? && m.e.out.written && m.i < |s.pcs| &&
      var pc := s.pcs[m.i];
      || (pc.Launching? && pc.l == CAPACITY_LOST && CreateSafe(pc.d.kind) && m.e.write.Rotated?
          && s.record.value.token !in s.cloud)
      || (pc.Holding? && m.e.write.Settled? && m.e.write.seen == pc.seen
          && OwnedIds(key, pc.seen) == {} && m.e.now >= s.record.value.attemptValidTo)
  }

  lemma ReplacedStep(key: Key, s: Global, m: Move)
    requires Inv(key, s) && Allowed(key, s, m) && s.record.Some? && !NoAttempt(s.record.value)
    requires !TokenIs(Apply(key, s, m).record, s.record.value.token)
    ensures Replaces(key, s, m)
  {
    if m.Act? {
      assert m.e.Saved?;
      ReplacedBySave(key, s, m.i, m.e);
    }
  }

  lemma ReplacedBySave(key: Key, s: Global, i: nat, e: Event)
    requires Inv(key, s) && Allowed(key, s, Act(i, e, None)) && e.Saved? && s.record.Some? && !NoAttempt(s.record.value)
    requires !TokenIs(Effect(key, s.record, e), s.record.value.token)
    ensures Replaces(key, s, Act(i, e, None))
  {
    hide Apply, WatchNext, LaunchNext, NewAttempt, Wellformed, Valid, Blank, LockInv, BlocksInv;
    Saver(key, s, i, e);
    var pc := s.pcs[i];
    assert PcOk(key, s, pc);
    ClientsKeepRecord(key, e.write, s.record, e.now, e.out);
    if e.write.Settled? {
      var input := Input(key.target, key.account, LocalOption(s.record), pc.seen, e.now);
      CreateSafeExactly(input);
    }
  }

  /** The token was drawn and is not the record's. */
  predicate Away(s: Global, token: string) {
    token in s.used && !TokenIs(s.record, token)
  }

  /** Not even a power loss can bring the token back. */
  predicate Gone(s: Global, token: string) {
    Away(s, token) && forall r | r in s.older :: !TokenIs(r, token)
  }

  lemma RetiredStep(key: Key, s: Global, m: Move, token: string)
    requires Inv(key, s) && Allowed(key, s, m) && Away(s, token) && (m.PowerLoss? ==> Gone(s, token))
    ensures Away(Apply(key, s, m), token) && (Gone(s, token) ==> Gone(Apply(key, s, m), token))
  {
    if m.Act? && m.e.Saved? {
      Saver(key, s, m.i, m.e);
      TokenAfter(key, s, m.e);
    }
  }

  predicate NoPowerLoss(h: History, from: nat, to: nat) {
    forall k | from <= k < to && k < |h.moves| :: !h.moves[k].PowerLoss?
  }

  lemma {:induction false} RetiredAt(key: Key, h: History, from: nat, n: nat, token: string)
    requires IsRun(key, h) && Inv(key, h.at[0]) && from <= n <= |h.moves| && Away(h.at[from], token)
    requires Gone(h.at[from], token) || NoPowerLoss(h, from, n)
    ensures Away(h.at[n], token) && (Gone(h.at[from], token) ==> Gone(h.at[n], token))
  {
    hide Inv, Allowed, Apply, Away;
    if n > from {
      RetiredAt(key, h, from, n - 1, token);
      InvAt(key, h, n - 1);
      assert Took(key, h, n - 1);
      hide Gone;
      RetiredStep(key, h.at[n - 1], h.moves[n - 1], token);
    }
  }

  /** The move is a launch call with this token. */
  predicate Sends(m: Move, token: string) {
    m.Act? && m.e.Launched? && m.e.request.token == token
  }

  /** Over a whole history launch tokens come in consecutive blocks. */
  lemma LaunchesAreConsecutive(key: Key, h: History, n: nat, i: nat, j: nat, k: nat)
    requires Reachable(key, h) && n <= |h.moves|
    requires i <= j <= k < |h.at[n].sent| && h.at[n].sent[i] == h.at[n].sent[k]
    ensures h.at[n].sent[j] == h.at[n].sent[i]
  {
    ReachableInv(key, h, n);
  }

  /** Once the record's token has been replaced it is never sent again, unless a power loss can and does bring it
      back. */
  lemma TokensRetire(key: Key, h: History, a: nat, b: nat, n: nat, token: string)
    requires Reachable(key, h) && a <= b <= n < |h.moves|
    requires token != "" && TokenIs(h.at[a].record, token) && !TokenIs(h.at[b].record, token)
    requires (forall r | r in h.at[b].older :: !TokenIs(r, token)) || NoPowerLoss(h, b, n)
    ensures !Sends(h.moves[n], token)
  {
    ReachableInv(key, h, 0);
    ReachableInv(key, h, a);
    UsedGrows(key, h, a, b, token);
    RetiredAt(key, h, b, n, token);
    if h.moves[n].Act? && h.moves[n].e.Launched? {
      WriteAhead(key, h, n);
    }
  }

  lemma {:induction false} UsedGrows(key: Key, h: History, a: nat, b: nat, token: string)
    requires IsRun(key, h) && a <= b <= |h.moves| && token in h.at[a].used
    ensures token in h.at[b].used
  {
    hide Apply, Allowed;
    if b > a {
      UsedGrows(key, h, a, b - 1, token);
      assert Took(key, h, b - 1);
      UsedStep(key, h.at[b - 1], h.moves[b - 1]);
    }
  }

  lemma UsedStep(key: Key, s: Global, m: Move)
    ensures s.used <= Apply(key, s, m).used
  {
    hide Next, Effect, DrawnBy, CloudAfter, LockAfter, VouchedAfter;
  }

  // --- records and claims --------------------------------------------------------------------------------------------

  /** Every durable record of every history is well formed, and a decision conflicts with it only because it saw several
      owned instances. */
  lemma RecordsStayWellformed(key: Key, h: History, n: nat, seen: seq<Instance>, now: Time)
    requires Reachable(key, h) && n <= |h.moves|
    ensures WellformedOption(key, h.at[n].record)
    ensures VerdictOn(key, seen, h.at[n].record, now).kind == Conflict <==> |Counted(seen, key.target, key.account)| > 1
  {
    ReachableInv(key, h, n);
  }

  /** The move shows `id` with our tags, or creates it with them. */
  predicate Vouches(key: Key, m: Move, id: string) {
    m.Act? && match m.e
      case Discovered(_, seen) => exists x | x in seen :: Counts(x, key.target, key.account) && x.id == id
      case Launched(request, _, _) => m.born == Some(id) && request.key == key
      case _ => false
  }

  lemma VouchedStep(key: Key, s: Global, m: Move, id: string)
    requires Inv(key, s) && Allowed(key, s, m) && id in Apply(key, s, m).vouched && id !in s.vouched
    ensures Vouches(key, m, id)
  {
    assert PcOk(key, s, s.pcs[m.i]);
    if m.e.Launched? {
      Sender(key, s, m.i, m.e, m.born);
    }
  }

  lemma {:induction false} VouchedMeans(key: Key, h: History, n: nat, id: string)
    requires Reachable(key, h) && n <= |h.moves| && id in h.at[n].vouched
    ensures exists k :: 0 <= k < n && Vouches(key, h.moves[k], id)
  {
    hide Inv, Allowed, Apply, Vouches;
    if id in h.at[n - 1].vouched {
      VouchedMeans(key, h, n - 1, id);
    } else {
      ReachableInv(key, h, n - 1);
      assert Took(key, h, n - 1);
      VouchedStep(key, h.at[n - 1], h.moves[n - 1], id);
    }
  }

  /** The id is in the durable record before move `n`, or returned by that move. */
  predicate Claims(h: History, n: nat, id: string)
    requires n < |h.at|
  {
    || (h.at[n].record.Some? && h.at[n].record.value.instanceID == id)
    || (n < |h.moves| && h.moves[n].Act? && h.moves[n].e == Exited(true, id))
  }

  /** No unrelated instance is ever claimed: an id in the durable record, or returned by a run, was shown earlier in the
      history with our tags, or created by a launch that carries them. */
  lemma NoUnrelatedClaim(key: Key, h: History, n: nat, id: string)
    requires Reachable(key, h) && n <= |h.moves| && id != "" && Claims(h, n, id)
    ensures exists k :: 0 <= k < n && Vouches(key, h.moves[k], id)
  {
    hide Inv, Allowed, Apply, Vouches;
    ReachableInv(key, h, n);
    if n < |h.moves| && h.moves[n].Act? && h.moves[n].e == Exited(true, id) {
      assert Took(key, h, n);
      ReturnedIsVouched(key, h.at[n], h.moves[n].i, id, h.moves[n].born);
    } else {
      RecordedIsVouched(key, h.at[n]);
    }
    VouchedMeans(key, h, n, id);
  }

  lemma RecordedIsVouched(key: Key, s: Global)
    requires Inv(key, s) && s.record.Some?
    ensures Vouched(s, s.record.value.instanceID)
  {
  }

  lemma ReturnedIsVouched(key: Key, s: Global, i: nat, id: string, born: Option<string>)
    requires Inv(key, s) && Allowed(key, s, Act(i, Exited(true, id), born))
    ensures Vouched(s, id)
  {
    assert PcOk(key, s, s.pcs[i]);
    hide Inv, PcsInv, LockInv, TokensInv, RecordInv, BlocksInv, LaunchPlan;
  }

  /** A run that has stored an instance as running finds it in the record. */
  predicate Recorded(s: Global, pc: Pc) {
    pc.Launching? && Succeeded(pc.l) ==>
      && s.record.Some? && s.record.value.phase == Running
      && s.record.value.instanceID == pc.l.result.vm.id && s.record.value.publicIP == pc.l.result.vm.publicIP
  }

  predicate AllRecorded(s: Global) {
    forall i | 0 <= i < |s.pcs| :: Recorded(s, s.pcs[i])
  }

  /** Whoever comes to have stored an instance stored it with this very event. */
  lemma StoredNow(key: Key, s: Global, i: nat, e: Event, born: Option<string>)
    requires Inv(key, s) && Allowed(key, s, Act(i, e, born))
    ensures Recorded(Apply(key, s, Act(i, e, born)), Next(s.pcs[i], e).value)
  {
    var pc, pc' := s.pcs[i], Next(s.pcs[i], e).value;
    hide Next, LaunchNext, LaunchPlan, LaunchStart, Inv, Contract, After, Feasible;
    if pc'.Launching? && Succeeded(pc'.l) {
      Sequel.LaunchEntry(pc, e, pc');
      NotAtOnce(pc'.launch);
      SuccessIsStored(pc'.launch, pc.l, e);
      WrittenIsFound(key, e.write, s.record, e.now, e.out);
    }
  }

  lemma RecordedStep(key: Key, s: Global, m: Move)
    requires Inv(key, s) && Allowed(key, s, m) && AllRecorded(s)
    ensures AllRecorded(Apply(key, s, m))
  {
    var s' := Apply(key, s, m);
    forall j | 0 <= j < |s'.pcs|
      ensures Recorded(s', s'.pcs[j])
    {
      if m.Act? && j == m.i {
        StoredNow(key, s, m.i, m.e, m.born);
      } else if s'.pcs[j].Launching? {
        assert Recorded(s, s.pcs[j]);
        assert HoldsLock(s.pcs[j]);
        if m.Act? && m.e.Saved? {
          Saver(key, s, m.i, m.e);
        }
      }
    }
  }

  lemma {:induction false} RecordedAt(key: Key, h: History, n: nat)
    requires Reachable(key, h) && n <= |h.moves|
    ensures AllRecorded(h.at[n])
  {
    if n > 0 {
      RecordedAt(key, h, n - 1);
      ReachableInv(key, h, n - 1);
      assert Took(key, h, n - 1);
      hide Inv, Allowed, Apply, AllRecorded;
      RecordedStep(key, h.at[n - 1], h.moves[n - 1]);
    }
  }

  /** What a run returns is what the durable record says, whatever other processes do: an instance that is running. */
  lemma ReturnedIsRecorded(key: Key, h: History, n: nat, id: string)
    requires Reachable(key, h) && n < |h.moves| && h.moves[n].Act? && h.moves[n].e == Exited(true, id) && id != ""
    ensures var r := h.at[n].record; r.Some? && r.value.phase == Running && r.value.instanceID == id
  {
    RecordedAt(key, h, n);
    ReachableInv(key, h, n);
    assert Took(key, h, n);
    hide Apply, Inv, AllRecorded, Recorded;
    ReturningStep(key, h.at[n], h.moves[n].i, id, h.moves[n].born);
  }

  lemma ReturningStep(key: Key, s: Global, i: nat, id: string, born: Option<string>)
    requires Inv(key, s) && AllRecorded(s) && Allowed(key, s, Act(i, Exited(true, id), born)) && id != ""
    ensures s.record.Some? && s.record.value.phase == Running && s.record.value.instanceID == id
  {
    assert PcOk(key, s, s.pcs[i]);
    assert Recorded(s, s.pcs[i]);
    hide Inv, PcsInv, LockInv, TokensInv, RecordInv, BlocksInv, AllRecorded, LaunchNext, WatchNext, Durable;
  }
}
