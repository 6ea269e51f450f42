/** When a launch token that was replaced can be sent again: a power loss has to bring its record back, and its
    attempt must not have expired by then. */
module Returns {
  import opened Basics
  import opened Reconcile
  import opened State
  import opened Events
  import opened LaunchSpec
  import opened WatchSpec
  import opened RunnerSpec
  import opened Protocol
  import opened Safety
  import opened Scenarios

  /** Some continuation, on a clock that shows `now` and never goes back, sends the token. */
  ghost predicate SentLater(key: Key, s: Global, token: string, now: Time) {
    exists h, k: nat :: SentAt(key, s, token, now, h, k)
  }

  predicate SentAt(key: Key, s: Global, token: string, now: Time, h: History, k: nat) {
    IsRun(key, h) && h.at[0] == s && Forward(h.moves, now) && k < |h.moves| && Sends(h.moves[k], token)
  }

  predicate Retryable(r: Option<Record>, token: string, now: Time) {
    TokenIs(r, token) && now < r.value.attemptValidTo
  }

  /** A token that has been replaced is sent again in some continuation exactly when a power loss can still bring back a
      record in which its attempt has not expired. */
  lemma ReplacedTokenReturnsExactly(key: Key, h: History, n: nat, token: string, now: Time)
    requires Reachable(key, h) && n <= |h.moves| && |h.at[n].pcs| > 0 && Away(h.at[n], token)
    ensures SentLater(key, h.at[n], token, now) <==> exists r | r in h.at[n].older :: Retryable(r, token, now)
  {
    ReachableInv(key, h, n);
    var s := h.at[n];
    if r :| r in s.older && Retryable(r, token, now) {
      hide *;
      var back := SendAgain(key, s, r, token, now);
      SentThen(key, s, token, now, back, |back.moves| - 1);
    } else {
      AwayIsStale(key, s, token, now);
      hide *;
      forall h', k: nat
        ensures !SentAt(key, s, token, now, h', k)
      {
        StaleForGood(key, s, token, now, h', k);
      }
      NeverSent(key, s, token, now);
    }
  }

  lemma NeverSent(key: Key, s: Global, token: string, now: Time)
    requires forall h, k: nat :: !SentAt(key, s, token, now, h, k)
    ensures !SentLater(key, s, token, now)
  {
  }

  lemma SentThen(key: Key, s: Global, token: string, now: Time, h: History, k: nat)
    requires SentAt(key, s, token, now, h, k)
    ensures SentLater(key, s, token, now)
  {
  }

  // --- not again -----------------------------------------------------------------------------------------------------

  /** The position goes with a create-safe decision for the token. */
  predicate Carries(pc: Pc, token: string) {
    (pc.Chosen? || pc.Watching? || pc.Launching?) && CreateSafe(pc.d.kind)
    && pc.d.attempt.Some? && pc.d.attempt.value.token == token
  }

  /** No process is about to use the token, and no record allows it after `now`. */
  predicate Stale(s: Global, token: string, now: Time) {
    && token in s.used && !Retryable(s.record, token, now) && (forall r | r in s.older :: !Retryable(r, token, now))
    && (forall i | 0 <= i < |s.pcs| :: !Carries(s.pcs[i], token))
  }

  lemma AwayIsStale(key: Key, s: Global, token: string, now: Time)
    requires Inv(key, s) && Away(s, token) && forall r | r in s.older :: !Retryable(r, token, now)
    ensures Stale(s, token, now)
  {
    forall i | 0 <= i < |s.pcs|
      ensures !Carries(s.pcs[i], token)
    {
      assert PcOk(key, s, s.pcs[i]);
    }
    hide Wellformed;
  }

  lemma StaleStep(key: Key, s: Global, m: Move, token: string, now: Time, t: Time)
    requires Inv(key, s) && Allowed(key, s, m) && Stale(s, token, now) && now <= t && NotEarlier(t, m)
    ensures Stale(Apply(key, s, m), token, now)
  {
    if m.Act? {
      if m.e.Saved? {
        Saver(key, s, m.i, m.e);
        StaleRecord(key, s, m.e, token, now);
      }
      StalePosition(key, s, m.i, m.e, m.born, token, now);
      hide Next, Effect, Contract, Reports, Inv;
    }
  }

  lemma StaleRecord(key: Key, s: Global, e: Event, token: string, now: Time)
    requires Inv(key, s) && e.Saved? && Reports(key, s.record, e) && Named(e.write) && DrawnBy(key, e) !! s.used
    requires token in s.used && !Retryable(s.record, token, now)
    ensures !Retryable(Effect(key, s.record, e), token, now)
  {
    ClientsKeepRecord(key, e.write, s.record, e.now, e.out);
    hide After, Verdict, NewAttempt, Valid, Blank, PcsInv, LockInv, BlocksInv, Feasible;
  }

  lemma StalePosition(key: Key, s: Global, i: nat, e: Event, born: Option<string>, token: string, now: Time)
    requires Inv(key, s) && Allowed(key, s, Act(i, e, born)) && Stale(s, token, now) && (e.Saved? ==> e.now >= now)
    ensures !Carries(Next(s.pcs[i], e).value, token)
  {
    hide WatchNext, LaunchNext, Verdict, NewAttempt, After, Wellformed, LockInv, BlocksInv, RecordInv, TokensInv;
    if s.pcs[i].Holding? && e.Saved? && e.out.ok {
      assert PcOk(key, s, s.pcs[i]);
      StaleDecision(key, s, e, token, now);
    } else if s.pcs[i].Launching? && e.Saved? && e.write.Rotated? {
      assert PcOk(key, s, s.pcs[i]);
      FreshRotation(key, s, e, token);
    }
    hide WatchNext, LaunchNext, Verdict, NewAttempt, After, Feasible, PcsInv, LockInv, BlocksInv, RecordInv, TokensInv;
  }

  lemma StaleDecision(key: Key, s: Global, e: Event, token: string, now: Time)
    requires e.Saved? && e.write.Settled? && Reports(key, s.record, e) && DrawnBy(key, e) !! s.used && e.out.ok
    requires token in s.used && !Retryable(s.record, token, now) && e.now >= now
    ensures var d := WithDraw(VerdictOn(key, e.write.seen, e.before, e.now), e.write.draw, e.now);
      CreateSafe(d.kind) ==> d.attempt.Some? ==> d.attempt.value.token != token
  {
    hide NewAttempt, Counted, Blank;
  }

  lemma FreshRotation(key: Key, s: Global, e: Event, token: string)
    requires e.Saved? && e.write.Rotated? && DrawnBy(key, e) !! s.used && token in s.used
    ensures var a := NewAttempt(e.write.draw, e.now, ATTEMPT_VALIDITY); a.Some? ==> a.value.token != token
  {
    hide NewAttempt;
  }

  lemma {:induction false} StaleAt(key: Key, h: History, n: nat, token: string, now: Time)
    requires IsRun(key, h) && Inv(key, h.at[0]) && Forward(h.moves, now) && Stale(h.at[0], token, now) && n <= |h.moves|
    ensures Stale(h.at[n], token, now)
  {
    if n > 0 {
      assert Took(key, h, n - 1);
      hide Inv, Allowed, Apply, Stale, NotEarlier;
      StaleAt(key, h, n - 1, token, now);
      InvAt(key, h, n - 1);
      var t := ForwardAt(h.moves, now, n - 1);
      StaleStep(key, h.at[n - 1], h.moves[n - 1], token, now, t);
    }
  }

  lemma {:induction false} ForwardAt(ms: seq<Move>, from: Time, k: nat) returns (t: Time)
    requires Forward(ms, from) && k < |ms|
    ensures t >= from && NotEarlier(t, ms[k])
  {
    var before := ms[..|ms| - 1];
    if k < |before| {
      t := ForwardAt(before, from, k);
    } else {
      t := ClockOf(before, from);
      ClockNeverBefore(before, from);
    }
  }

  lemma {:induction false} ClockNeverBefore(ms: seq<Move>, from: Time)
    requires Forward(ms, from)
    ensures ClockOf(ms, from) >= from
  {
    if ms != [] {
      ClockNeverBefore(ms[..|ms| - 1], from);
    }
  }

  lemma StaleForGood(key: Key, s: Global, token: string, now: Time, h: History, k: nat)
    requires Inv(key, s) && Stale(s, token, now)
    ensures !SentAt(key, s, token, now, h, k)
  {
    if SentAt(key, s, token, now, h, k) {
      hide Inv, Stale, Apply, Forward;
      StaleAt(key, h, k, token, now);
      InvAt(key, h, k);
      assert Took(key, h, k);
      StaleSendsNothing(key, h.at[k], h.moves[k], token, now);
    }
  }

  lemma SenderCarries(key: Key, s: Global, m: Move, token: string)
    requires Inv(key, s) && Allowed(key, s, m) && Sends(m, token)
    ensures m.i < |s.pcs| && Carries(s.pcs[m.i], token)
  {
    Sender(key, s, m.i, m.e, m.born);
    assert PcOk(key, s, s.pcs[m.i]);
    hide Wellformed;
  }

  lemma StaleSendsNothing(key: Key, s: Global, m: Move, token: string, now: Time)
    requires Inv(key, s) && Allowed(key, s, m) && Stale(s, token, now)
    ensures !Sends(m, token)
  {
    hide Inv, Allowed, Carries, Retryable;
    if Sends(m, token) {
      SenderCarries(key, s, m, token);
    }
  }

  // --- again ---------------------------------------------------------------------------------------------------------

  lemma SendAgain(key: Key, s: Global, r: Option<Record>, token: string, now: Time) returns (h: History)
    requires Inv(key, s) && |s.pcs| > 0 && token in s.used && r in s.older && Retryable(r, token, now)
    ensures |h.moves| > 0 && SentAt(key, s, token, now, h, |h.moves| - 1)
  {
    RecordedAttempt(key, s, r, token);
    var f := Frame(now, false);
    hide Inv, Apply, Playable, NoAttempt, AnySetup, InformedRun, ListsAll;
    h := Open(key, f, s);
    var power := PowerStep(key, s, now, r);
    Play(key, f, h, power);
    h := Longer(key, h, power);
    h := Restart(key, f, h, 0, AnySetup(key));
    h := RetryAndSend(key, f, h, token);
  }

  lemma RetryAndSend(key: Key, f: Frame, start: History, token: string) returns (h: History)
    requires Scene(key, f, start) && Inv(key, End(start)) && |End(start).pcs| > 0 && !f.full
    requires End(start).pcs[0] == Holding(AnySetup(key), [])
    requires TokenIs(End(start).record, token) && !NoAttempt(End(start).record.value)
    requires Now(f, start) < End(start).record.value.attemptValidTo && End(start).record.value.attemptValidTo > 1
    ensures Scene(key, f, h) && h.at[0] == start.at[0] && |h.moves| > 0 && Sends(h.moves[|h.moves| - 1], token)
  {
    hide Inv, Apply, Playable, NoAttempt, AnySetup, InformedRun, ListsAll;
    var time := if Now(f, start) > 0 then Now(f, start) else 1;
    var retry := RetryStep(key, End(start), Now(f, start), false, 0, AnySetup(key), time);
    Play(key, f, start, retry);
    h := Longer(key, start, retry);
    h := ReachLaunch(key, f, h, 0);
    var send := LaunchStep(key, End(h), Now(f, h), false, 0, None);
    Play(key, f, h, send);
    h := Longer(key, h, send);
  }

  lemma RecordedAttempt(key: Key, s: Global, r: Option<Record>, token: string)
    requires Inv(key, s) && r in s.older && TokenIs(r, token) && token in s.used
    ensures !NoAttempt(r.value) && r.value.attemptValidTo > 1
  {
    assert RecordOk(key, s, r);
  }

  lemma PowerStep(key: Key, s: Global, t: Time, back: Option<Record>) returns (m: Move)
    requires back in s.older
    ensures Playable(key, s, t, false, m) && TimeAfter(t, m) == t
    ensures var s' := Apply(key, s, m); s'.record == back && s'.lock.None? && |s'.pcs| == |s.pcs|
  {
    m := PowerLoss(back);
  }
}
