/** The observation behind an expired decision has to be current, if the decision is written: exactly then. */
module Exactness {
  import opened Basics
  import opened Reconcile
  import opened State
  import opened RunnerSpec
  import opened Protocol
  import opened Safety
  import opened Scenarios

  /** An informed continuation on a clock that shows `from` now and never goes back. */
  predicate Continuation(key: Key, s: Global, from: Time, h: History) {
    IsRun(key, h) && InformedRun(key, h) && h.at[0] == s && Forward(h.moves, from)
  }

  /** Every such continuation keeps at most one instance alive. */
  ghost predicate StaysSafe(key: Key, s: Global, from: Time) {
    forall h | Continuation(key, s, from, h) :: |Live(End(h))| <= 1
  }

  /** In any history that was informed so far, an expired decision keeps the system safe exactly when it was not
      written or does not miss a live instance: if it was written, even behind an error, and misses one, a later
      process can bring up a second, with no clock ever set back. */
  lemma ExpiredDecisionSafeExactly(key: Key, h: History, n: nat)
    requires Reachable(key, h) && n < |h.moves| && ExpiredDecision(key, h.at[n], h.moves[n])
    requires forall k: nat | k < n :: InformedAt(key, h, k)
    ensures StaysSafe(key, h.at[n + 1], h.moves[n].e.now) <==>
      !h.moves[n].e.out.written || SeesLive(key, h.at[n], h.moves[n].e.write.seen)
  {
    ReachableInv(key, h, n);
    ReachableLive(key, h, n);
    assert Took(key, h, n);
    hide Inv, LiveInv, Allowed, Apply, ExpiredDecision, StaysSafe, SeesLive;
    ExpiredStepExactly(key, h.at[n], h.moves[n]);
  }

  lemma ReachableLive(key: Key, h: History, n: nat)
    requires Reachable(key, h) && n <= |h.moves|
    requires forall k: nat | k < n :: InformedAt(key, h, k)
    ensures LiveInv(h.at[n])
  {
    hide Inv, LiveInv;
    InitialInv(key, h.at[0]);
    LiveAt(key, h, n);
  }

  lemma ExpiredStepExactly(key: Key, s: Global, m: Move)
    requires Inv(key, s) && LiveInv(s) && Allowed(key, s, m) && ExpiredDecision(key, s, m)
    ensures StaysSafe(key, Apply(key, s, m), m.e.now) <==> !m.e.out.written || SeesLive(key, s, m.e.write.seen)
  {
    InvStep(key, s, m);
    if m.e.out.written && !SeesLive(key, s, m.e.write.seen) {
      SecondInstance(key, s, m);
    } else {
      if m.e.out.written {
        LiveStep(key, s, m);
      } else {
        NothingWritten(key, s, m);
      }
      hide Inv, LiveInv, Allowed, Apply;
      SafeForever(key, Apply(key, s, m), m.e.now);
    }
  }

  lemma NothingWritten(key: Key, s: Global, m: Move)
    requires LiveInv(s) && m.Act? && m.e.Saved? && !m.e.out.written
    ensures LiveInv(Apply(key, s, m))
  {
    hide Next;
  }

  lemma SafeForever(key: Key, s: Global, from: Time)
    requires Inv(key, s) && LiveInv(s)
    ensures StaysSafe(key, s, from)
  {
    hide Inv, LiveInv, Forward;
    forall h | Continuation(key, s, from, h)
      ensures |Live(End(h))| <= 1
    {
      LiveAt(key, h, |h.moves|);
      OneLive(End(h));
    }
  }

  /** The written decision put a token into the record that nobody used, while another one is alive. Its process dies,
      and the next one retries the new token at once. */
  lemma SecondInstance(key: Key, s: Global, m: Move)
    requires Inv(key, s) && Allowed(key, s, m) && ExpiredDecision(key, s, m)
    requires m.e.out.written && !SeesLive(key, s, m.e.write.seen)
    ensures !StaysSafe(key, Apply(key, s, m), m.e.now)
  {
    InvStep(key, s, m);
    var old' :| old' in Live(s);
    var token := WrittenToken(key, s, m);
    LiveIsKnown(s, Apply(key, s, m), old', token);
    var s', i, from := Apply(key, s, m), m.i, m.e.now;
    hide *;
    var h := RetryAgain(key, s', i, token, from);
    TwoLive(key, s', from, h, old', token);
  }

  lemma LiveIsKnown(s: Global, s': Global, old': string, token: string)
    requires old' in Live(s) && s'.cloud == s.cloud && token !in s.cloud
    ensures old' in Live(s') && old' != token
  {
  }

  /** A process starts over, retries the token of the record and gets its instance. */
  lemma RetryAgain(key: Key, s: Global, i: nat, token: string, now: Time) returns (h: History)
    requires Inv(key, s) && i < |s.pcs| && (s.lock == Some(i) || s.lock.None?)
    requires TokenIs(s.record, token) && !NoAttempt(s.record.value) && 0 < now < s.record.value.attemptValidTo
    requires token !in s.cloud
    ensures Continuation(key, s, now, h) && Live(End(h)) == Live(s) + {token}
  {
    var f := Frame(now, false);
    hide Inv, Apply, Playable, NoAttempt, AnySetup, Live;
    h := Open(key, f, s);
    h := Restart(key, f, h, i, AnySetup(key));
    LiveFrame(s, End(h));
    var retry := RetryStep(key, End(h), Now(f, h), false, i, AnySetup(key), now);
    Play(key, f, h, retry);
    h := Longer(key, h, retry);
    LiveFrame(s, End(h));
    h := BringUp(key, f, h, i, AnySetup(key), token);
  }

  lemma LiveFrame(s: Global, s': Global)
    requires s'.cloud == s.cloud
    ensures Live(s') == Live(s)
  {
  }

  lemma TwoLive(key: Key, s: Global, from: Time, h: History, a: string, b: string)
    requires Continuation(key, s, from, h) && a in Live(s) && Live(End(h)) == Live(s) + {b} && a != b
    ensures !StaysSafe(key, s, from)
  {
    assert a in Live(End(h)) && b in Live(End(h));
    Smaller({a, b}, Live(End(h)));
  }

  lemma WrittenToken(key: Key, s: Global, m: Move) returns (token: string)
    requires Inv(key, s) && Allowed(key, s, m) && ExpiredDecision(key, s, m) && m.e.out.written
    ensures var s' := Apply(key, s, m);
      && TokenIs(s'.record, token) && !NoAttempt(s'.record.value) && 0 < m.e.now < s'.record.value.attemptValidTo
      && token !in s.cloud && s'.cloud == s.cloud && m.i < |s'.pcs|
      && (s'.lock == Some(m.i) || s'.lock.None?)
  {
    Saver(key, s, m.i, m.e);
    NewAttemptIsFresh(m.e.write.draw, m.e.write.draw, m.e.now, m.e.now);
    token := NewAttempt(m.e.write.draw, m.e.now, ATTEMPT_VALIDITY).value.token;
    assert token in DrawnBy(key, m.e);
    hide Verdict, Blank, NewAttempt;
  }

  /** An expired decision saw nothing of ours, so what it has to see is that nothing is alive. */
  lemma InformedMeansNothingLives(key: Key, s: Global, m: Move)
    requires ExpiredDecision(key, s, m)
    ensures Informed(key, s, m) <==> Live(s) == {}
  {
    if Informed(key, s, m) {
      NothingSeen(key, s, m.e.write.seen);
    }
  }
}
