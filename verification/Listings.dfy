/** Discovery lists the instances before the run lock is taken. What has to hold of the listings, and what happens
    without. */
module Listings {
  import opened Basics
  import opened Reconcile
  import opened State
  import opened Events
  import opened RunnerSpec
  import opened Protocol
  import opened Safety
  import opened Scenarios

  // --- from the listing to the decision ------------------------------------------------------------------------------

  /** The move in which process `i` last listed the instances. */
  function Listed(h: History, n: nat, i: nat): (k: Option<nat>)
    requires n <= |h.moves|
    ensures k.Some? ==> k.value < n
    ensures k.Some? ==> h.moves[k.value].Act? && h.moves[k.value].i == i && h.moves[k.value].e.Discovered?
  {
    if n == 0 then None
    else if h.moves[n - 1].Act? && h.moves[n - 1].i == i && h.moves[n - 1].e.Discovered? then Some(n - 1)
    else Listed(h, n - 1, i)
  }

  /** The process has listed and has not asked for the run lock yet. */
  predicate Waits(h: History, n: nat, i: nat)
    requires n < |h.at|
  {
    i < |h.at[n].pcs| && h.at[n].pcs[i].Observed?
  }

  /** The move creates an instance. */
  predicate Births(m: Move) {
    m.Act? && m.born.Some?
  }

  /** Nothing is created between listing `k` of process `i` and its taking of the lock, up to move `n`. */
  predicate Undisturbed(h: History, k: nat, n: nat, i: nat)
    requires n <= |h.moves| < |h.at|
  {
    forall j | k < j < n && Waits(h, j, i) :: !Births(h.moves[j])
  }

  /** If move `n` is an expired decision: its process's listing was complete when it was made, and no launch created an
      instance between that listing and the lock. */
  predicate ListingHolds(key: Key, h: History, n: nat)
    requires n < |h.moves| < |h.at|
  {
    ExpiredDecision(key, h.at[n], h.moves[n]) ==>
      var k := Listed(h, n, h.moves[n].i);
      k.Some? ==> ListsAt(key, h, k.value) && Undisturbed(h, k.value, n, h.moves[n].i)
  }

  /** The position still goes with this listing. */
  predicate From(pc: Pc, seen: seq<Instance>) {
    (pc.Observed? || pc.Holding?) && pc.seen == seen
  }

  /** A process that waits for the lock, or holds it undecided, still has its last listing. */
  lemma {:induction false} LastListing(key: Key, h: History, n: nat, i: nat, seen: seq<Instance>) returns (k: nat)
    requires Reachable(key, h) && n <= |h.moves| && i < |h.at[n].pcs| && From(h.at[n].pcs[i], seen)
    ensures Listed(h, n, i) == Some(k) && h.moves[k].e.seen == seen
    ensures forall j | k < j <= n :: i < |h.at[j].pcs| && From(h.at[j].pcs[i], seen)
  {
    if n == 0 {
      assert false;
    }
    assert Took(key, h, n - 1);
    var s, m := h.at[n - 1], h.moves[n - 1];
    ListingStep(key, s, m, i, seen);
    hide Reachable, Allowed, Apply;
    if m.Act? && m.i == i && m.e.Discovered? {
      k := n - 1;
    } else {
      k := LastListing(key, h, n - 1, i, seen);
    }
  }

  lemma ListingStep(key: Key, s: Global, m: Move, i: nat, seen: seq<Instance>)
    requires Allowed(key, s, m) && i < |Apply(key, s, m).pcs| && From(Apply(key, s, m).pcs[i], seen)
    ensures if m.Act? && m.i == i && m.e.Discovered? then m.e.seen == seen else i < |s.pcs| && From(s.pcs[i], seen)
  {
    hide Contract, Reports, InWatch, InLaunch, OnSettled;
    if m.Act? && m.i == i {
      Openings(s.pcs[i], m.e);
    }
  }

  lemma Openings(pc: Pc, e: Event)
    requires Next(pc, e).Some? && (Next(pc, e).value.Observed? || Next(pc, e).value.Holding?)
    ensures if e.Discovered? then Next(pc, e).value == Observed(e.setup, e.seen)
            else pc.Observed? && Next(pc, e).value == Holding(pc.setup, pc.seen)
  {
    hide Feasible;
  }

  /** While a process waits for the lock or holds it undecided, only births during the waiting matter. */
  lemma NoBirthUnderLock(key: Key, s: Global, m: Move, i: nat)
    requires Inv(key, s) && Allowed(key, s, m) && i < |s.pcs| && s.pcs[i].Holding?
    ensures !Births(m)
  {
    assert HoldsLock(s.pcs[i]);
    if Births(m) {
      Sender(key, s, m.i, m.e, m.born);
    }
  }

  /** Nothing alive is new. */
  predicate Shrunk(s: Global, s': Global) {
    forall t | t in Live(s') :: t in Live(s) && s'.cloud[t].id == s.cloud[t].id
  }

  lemma ShrinkStep(key: Key, s: Global, m: Move)
    requires !Births(m)
    ensures Shrunk(s, Apply(key, s, m))
  {
    hide Next, Effect;
  }

  lemma {:induction false} Shrinks(key: Key, h: History, k: nat, n: nat)
    requires IsRun(key, h) && k <= n <= |h.moves| && forall j | k <= j < n :: !Births(h.moves[j])
    ensures Shrunk(h.at[k], h.at[n])
  {
    if k < n {
      Shrinks(key, h, k, n - 1);
      assert Took(key, h, n - 1);
      ShrinkStep(key, h.at[n - 1], h.moves[n - 1]);
      hide Allowed, Apply;
    }
  }

  lemma ListingIsBirthless(key: Key, s: Global, m: Move)
    requires Allowed(key, s, m) && m.Act? && m.e.Discovered?
    ensures !Births(m)
  {
    hide Next;
  }

  lemma StillSees(key: Key, s: Global, s': Global, seen: seq<Instance>)
    requires SeesLive(key, s, seen) && Shrunk(s, s')
    ensures SeesLive(key, s', seen)
  {
  }

  lemma ExpiredFromHolding(key: Key, s: Global, m: Move)
    requires Inv(key, s) && Allowed(key, s, m) && ExpiredDecision(key, s, m)
    ensures m.i < |s.pcs| && s.pcs[m.i].Holding? && s.pcs[m.i].seen == m.e.write.seen
  {
    Saver(key, s, m.i, m.e);
    hide Verdict;
  }

  /** A listing that was complete when it was made is still good enough at the decision, if nothing was created while
      its process waited for the lock. */
  lemma ListingInforms(key: Key, h: History, n: nat)
    requires Reachable(key, h) && n < |h.moves| && ListingHolds(key, h, n)
    ensures InformedAt(key, h, n)
  {
    ReachableInv(key, h, n);
    assert Took(key, h, n);
    if ExpiredDecision(key, h.at[n], h.moves[n]) {
      var i := h.moves[n].i;
      ExpiredFromHolding(key, h.at[n], h.moves[n]);
      var k := LastListing(key, h, n, i, h.moves[n].e.write.seen);
      assert ListsAt(key, h, k) && Undisturbed(h, k, n, i);
      hide Inv, Allowed, Apply, ExpiredDecision, Listed, SeesLive, Shrunk;
      forall j | k <= j < n
        ensures !Births(h.moves[j])
      {
        ReachableInv(key, h, j);
        assert Took(key, h, j);
        if j == k {
          ListingIsBirthless(key, h.at[j], h.moves[j]);
        } else if h.at[j].pcs[i].Holding? {
          NoBirthUnderLock(key, h.at[j], h.moves[j], i);
        }
      }
      Shrinks(key, h, k, n);
      StillSees(key, h.at[k], h.at[n], h.moves[k].e.seen);
    }
  }

  /** At most one instance is alive in every history in which the listing behind each expired decision was complete when
      it was made, and no launch created an instance between that listing and the run lock. */
  lemma AtMostOneWithCompleteListings(key: Key, h: History, n: nat)
    requires Reachable(key, h) && n <= |h.moves| && forall k: nat | k < |h.moves| :: ListingHolds(key, h, k)
    ensures |Live(h.at[n])| <= 1
  {
    hide ListingHolds, Live, InformedAt, Initial, Took;
    forall k: nat | k < |h.moves|
      ensures InformedAt(key, h, k)
    {
      ListingInforms(key, h, k);
    }
    AtMostOneInstance(key, h, n);
  }

  // --- the order of listing and lock matters -------------------------------------------------------------------------

  /** On one clock, with every listing complete when it was made, move `n` is the first uninformed one: a written
      expired decision that misses a live instance. */
  predicate MissesAt(key: Key, h: History, n: nat) {
    && Reachable(key, h) && n < |h.moves| && Forward(h.moves, 0) && ListsAll(key, h)
    && (forall k: nat | k < n :: InformedAt(key, h, k))
    && ExpiredDecision(key, h.at[n], h.moves[n]) && h.moves[n].e.out.written
    && !SeesLive(key, h.at[n], h.moves[n].e.write.seen)
  }

  ghost predicate CanMiss(key: Key) {
    exists h, n: nat :: MissesAt(key, h, n)
  }

  /** For every account and target that can have a record at all, complete listings are not enough: a process may list
      before another one launches, and decide after that attempt has expired. */
  lemma CompleteListingsDoNotSuffice(key: Key)
    ensures CanMiss(key) <==> Usable(key)
  {
    if Usable(key) {
      var h := MissedDecision(key);
      assert MissesAt(key, h, |h.moves| - 1);
    } else {
      forall h, n: nat | MissesAt(key, h, n)
        ensures false
      {
        ReachableInv(key, h, n);
      }
    }
  }

  const FRAME := Frame(0, true)

  /** Both processes are idle; process 1 lists, and sees that there is nothing. */
  lemma EarlyListing(key: Key) returns (h: History)
    ensures Scene(key, FRAME, h) && Initial(h.at[0]) && Inv(key, End(h)) && Now(FRAME, h) == 0
    ensures var s := End(h);
      && s.record.None? && s.cloud == map[] && s.lock.None? && s.used == {}
      && |s.pcs| == 2 && s.pcs[1] == Observed(AnySetup(key), [])
  {
    var s0 := Global(None, {}, map[], None, [Idle, Idle], {}, [], {});
    InitialInv(key, s0);
    hide Inv, Apply, Playable, AnySetup, IsRun, InformedRun, ListsAll, Forward;
    h := Open(key, FRAME, s0);
    var list := DiscoverStep(key, s0, 0, true, 1, AnySetup(key));
    LengthsFit(key, FRAME, h);
    Play(key, FRAME, h, list);
    h := Longer(key, h, list);
  }

  lemma LengthsFit(key: Key, f: Frame, h: History)
    requires Scene(key, f, h)
    ensures |h.at| == |h.moves| + 1
  {
    hide Inv;
  }

  /** Process 0 stores its decision to create. */
  lemma FirstAttempt(key: Key) returns (h: History)
    requires Usable(key)
    ensures Scene(key, FRAME, h) && Initial(h.at[0]) && Inv(key, End(h))
    ensures var s := End(h);
      && Hex(Bytes(0)) !in s.cloud && (forall t | t in s.used :: t == Hex(Bytes(0))) && |s.pcs| == 2
      && ChosenFor(s.pcs[0], AnySetup(key), Hex(Bytes(0))) && s.pcs[1] == Observed(AnySetup(key), [])
  {
    hide Inv, Hex, Bytes, Initial, AnySetup, Usable, Verdict;
    h := FirstHold(key);
    FirstDecision(key);
    h := StoreDraw(key, FRAME, h, 0, AnySetup(key), Bytes(0), 1);
  }

  lemma StoreDraw(key: Key, f: Frame, start: History, i: nat, setup: Setup, draw: seq<Byte>, now: Time)
    returns (h: History)
    requires Scene(key, f, start) && Inv(key, End(start)) && End(start).record.None? && Now(f, start) <= now
    requires i < |End(start).pcs| && End(start).pcs[i] == Holding(setup, []) && setup.key == key
    requires Usable(key) && |draw| == 32 && 0 < now && Hex(draw) !in End(start).used
    requires VerdictOn(key, [], End(start).record, now).kind == Create
    ensures Scene(key, f, h) && h.at[0] == start.at[0] && Inv(key, End(h))
    ensures var s, s' := End(start), End(h);
      && Elsewhere(s, s', i) && s'.cloud == s.cloud && s'.used == s.used + {Hex(draw)}
      && ChosenFor(s'.pcs[i], setup, Hex(draw))
  {
    hide Inv, Apply, Allowed, Playable, NotEarlier, Hex, Usable, Verdict, InformedRun, ListsAll, Forward, Took;
    var create := DrawStep(key, End(start), Now(f, start), i, setup, draw, now);
    CreatesUnseen(key, End(start), Now(f, start), f.full, create);
    Play(key, f, start, create);
    h := Longer(key, start, create);
  }

  lemma CreatesUnseen(key: Key, s: Global, t: Time, full: bool, m: Move)
    requires s.record.None? && m.Act? && m.e.Saved? && Allowed(key, s, m) && NotEarlier(t, m)
    ensures Playable(key, s, t, full, m)
  {
    hide Allowed;
  }

  lemma FirstHold(key: Key) returns (h: History)
    ensures Scene(key, FRAME, h) && Initial(h.at[0]) && Inv(key, End(h))
    ensures var s := End(h);
      && s.record.None? && s.cloud == map[] && s.used == {} && |s.pcs| == 2
      && s.pcs[0] == Holding(AnySetup(key), []) && s.pcs[1] == Observed(AnySetup(key), [])
    ensures Now(FRAME, h) == 0
  {
    hide Inv, AnySetup, Initial;
    h := EarlyListing(key);
    h := Restart(key, FRAME, h, 0, AnySetup(key));
  }

  lemma FirstDecision(key: Key)
    ensures VerdictOn(key, [], None, 1).kind == Create
  {
  }

  /** It launches an instance, and the answer is lost. */
  lemma FirstInstance(key: Key) returns (h: History)
    requires Usable(key)
    ensures Scene(key, FRAME, h) && Initial(h.at[0]) && Inv(key, End(h))
    ensures var s := End(h);
      && Live(s) != {} && s.record.Some? && s.record.value.token != "" && (forall t | t in s.used :: t == Hex(Bytes(0)))
      && s.lock == Some(0) && |s.pcs| == 2 && s.pcs[1] == Observed(AnySetup(key), [])
  {
    hide Inv, Hex, Bytes, Initial, AnySetup, Usable;
    h := FirstAttempt(key);
    h := BringUp(key, FRAME, h, 0, AnySetup(key), Hex(Bytes(0)));
  }

  /** It dies, and process 1 gets the lock with its old listing. */
  lemma LateLock(key: Key) returns (h: History)
    requires Usable(key)
    ensures Scene(key, FRAME, h) && Initial(h.at[0]) && Inv(key, End(h))
    ensures var s := End(h);
      && Live(s) != {} && s.record.Some? && s.record.value.token != "" && (forall t | t in s.used :: t == Hex(Bytes(0)))
      && |s.pcs| == 2 && s.pcs[1] == Holding(AnySetup(key), [])
  {
    hide Inv, Apply, Playable, Hex, Bytes, Initial, AnySetup, Usable, Took, InformedRun, ListsAll, Forward;
    h := FirstInstance(key);
    var crash := CrashStep(key, End(h), Now(FRAME, h), true, 0);
    Play(key, FRAME, h, crash);
    h := Longer(key, h, crash);
    var guard := GuardStep(key, End(h), Now(FRAME, h), true, 1, AnySetup(key));
    Play(key, FRAME, h, guard);
    h := Longer(key, h, guard);
  }

  /** A time not before `t` at which the attempt in the record has expired. */
  lemma Expiry(key: Key, s: Global, t: Time) returns (now: Time)
    requires Inv(key, s) && s.record.Some? && s.record.value.token != ""
    ensures t <= now && 0 < now && !NoAttempt(s.record.value)
    ensures VerdictOn(key, [], s.record, now).kind == NewAttemptSafe
  {
    now := if s.record.value.attemptValidTo > t then s.record.value.attemptValidTo else t;
  }

  /** After the first attempt has expired, process 1 decides on what it saw at the very beginning. */
  lemma MissedDecision(key: Key) returns (h: History)
    requires Usable(key)
    ensures |h.moves| > 0 && MissesAt(key, h, |h.moves| - 1)
  {
    hide Inv, Apply, Hex, Initial, MissesAt, Usable, AnySetup, Allowed, Playable;
    h := LateLock(key);
    var now := Expiry(key, End(h), Now(FRAME, h));
    HexDiffers(Bytes(0), Bytes(1));
    hide Bytes;
    var expire := DrawStep(key, End(h), Now(FRAME, h), 1, AnySetup(key), Bytes(1), now);
    LastMove(key, h, expire);
    h := Longer(key, h, expire);
  }

  lemma LastMove(key: Key, h: History, m: Move)
    requires Scene(key, FRAME, h) && Initial(h.at[0]) && Allowed(key, End(h), m) && NotEarlier(Now(FRAME, h), m)
    requires ExpiredDecision(key, End(h), m) && m.e.out.written && m.e.write.seen == [] && Live(End(h)) != {}
    ensures MissesAt(key, Longer(key, h, m), |h.moves|)
  {
    hide Inv, Allowed, Apply, Informed, ExpiredDecision, Initial, NotEarlier;
    var h' := Longer(key, h, m);
    forall n: nat | n < |h'.moves|
      ensures Took(key, h', n) && (n < |h.moves| ==> InformedAt(key, h', n)) && ListsAt(key, h', n)
    {
      if n < |h.moves| {
        assert Took(key, h, n) && InformedAt(key, h, n) && ListsAt(key, h, n);
      } else {
        SavesListNothing(key, End(h), m);
      }
    }
    ForwardSnoc(h.moves, 0, m);
    var t :| t in Live(End(h));
    assert OwnedIds(key, []) == {};
  }

  lemma SavesListNothing(key: Key, s: Global, m: Move)
    requires ExpiredDecision(key, s, m)
    ensures Lists(key, s, m)
  {
  }
}
