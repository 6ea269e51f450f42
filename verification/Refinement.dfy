/** The imperative runs are the processes of the protocol: whatever several of them do, interleaved in any order and cut
    by crashes, is a run of the protocol, so the theorems of `Safety` speak about the code. */
module Refinement {
  import opened Basics
  import opened State
  import opened Events
  import opened LaunchSpec
  import opened WatchSpec
  import opened RunnerSpec
  import opened Protocol
  import opened Safety

  /** What `Runner.Run` promises of its trace, in an environment whose record is `initial` and left alone by others. */
  predicate Truthful(key: Key, initial: Option<Record>, es: seq<Event>) {
    RunAfter(es).Some? && Faithful(key, initial, es)
  }

  /** A run that is cut short was truthful as far as it got. */
  lemma {:induction false} TruthfulPrefix(key: Key, initial: Option<Record>, es: seq<Event>, n: nat)
    requires Truthful(key, initial, es) && n <= |es|
    ensures Truthful(key, initial, es[..n])
  {
    if n < |es| {
      TruthfulPrefix(key, initial, es[..|es| - 1], n);
      assert es[..|es| - 1][..n] == es[..n];
    } else {
      assert es[..n] == es;
    }
  }

  /** The events of process `i` since it was last idle. */
  function Own(ms: seq<Move>, i: nat): seq<Event> {
    if ms == [] then []
    else
      var before := Own(ms[..|ms| - 1], i);
      match ms[|ms| - 1]
      case Act(j, e, _) => if j != i then before else if e.Exited? then [] else before + [e]
      case Crash(j) => if j == i then [] else before
      case PowerLoss(_) => []
      case Terminate(_) => before
  }

  /** The record that process `i` met when it last asked for the run lock. */
  function Met(h: History, n: nat, i: nat): Option<Record>
    requires n <= |h.moves| < |h.at|
  {
    if n == 0 then None
    else
      var m := h.moves[n - 1];
      if m.Act? && m.i == i && m.e.Guarded? then h.at[n - 1].record else Met(h, n - 1, i)
  }

  /** The next state is the one the move leads to. */
  predicate Leads(key: Key, h: History, n: nat)
    requires n < |h.moves| && |h.at| == |h.moves| + 1
  {
    h.at[n + 1] == Apply(key, h.at[n], h.moves[n])
  }

  /** Whoever moves is a process whose own events are truthful about the record it met, as if nobody else ever changed
      it; the lock, the random source and the provider keep their contract. */
  predicate Kept(key: Key, h: History, n: nat)
    requires n < |h.moves| < |h.at|
  {
    match h.moves[n]
    case Act(i, e, born) =>
      i < |h.at[n].pcs| && Contract(key, h.at[n], e, born) && Truthful(key, Met(h, n, i), Own(h.moves[..n], i) + [e])
    case Crash(i) => i < |h.at[n].pcs|
    case PowerLoss(back) => back == h.at[n].record || back in h.at[n].older
    case Terminate(token) => token in h.at[n].cloud
  }

  /** Processes that run the code, in any interleaving. */
  predicate Interleaved(key: Key, h: History) {
    && |h.at| == |h.moves| + 1 && Initial(h.at[0])
    && (forall n: nat | n < |h.moves| :: Leads(key, h, n))
    && (forall n: nat | n < |h.moves| :: Kept(key, h, n))
  }

  /** The protocol's view of process `j` agrees with the process's own. */
  predicate Aligned(key: Key, s: Global, j: nat, met: Option<Record>, own: seq<Event>) {
    && j < |s.pcs| && RunAfter(own) == Some(s.pcs[j])
    && (if HoldsLock(s.pcs[j]) then s.record == Replay(key, met, own) else forall e | e in own :: !e.Saved?)
  }

  lemma {:induction false} NothingSaved(key: Key, r: Option<Record>, es: seq<Event>)
    requires forall e | e in es :: !e.Saved?
    ensures Replay(key, r, es) == r
  {
    if es != [] {
      NothingSaved(key, r, es[..|es| - 1]);
      assert es[|es| - 1] in es;
    }
  }

  /** A truthful next event is possible, and tells the truth about the shared record. */
  lemma OwnIsAllowed(key: Key, s: Global, i: nat, e: Event, born: Option<string>, met: Option<Record>, own: seq<Event>)
    requires Aligned(key, s, i, met, own) && Truthful(key, met, own + [e]) && Contract(key, s, e, born)
    ensures Allowed(key, s, Act(i, e, born))
  {
    RunSnoc(own, e);
    ReplaySnoc(key, met, own, e);
    hide RunAfter, Replay, Faithful, Contract, Feasible, InWatch, InLaunch;
    if !HoldsLock(s.pcs[i]) {
      assert !e.Saved? && !e.Resumed?;
    }
  }

  lemma OwnStep(key: Key, s: Global, i: nat, e: Event, born: Option<string>, met: Option<Record>, own: seq<Event>)
    requires Aligned(key, s, i, met, own) && Allowed(key, s, Act(i, e, born))
    ensures Aligned(key, Apply(key, s, Act(i, e, born)), i, if e.Guarded? then s.record else met,
                    if e.Exited? then [] else own + [e])
  {
    RunSnoc(own, e);
    ReplaySnoc(key, met, own, e);
    if !HoldsLock(s.pcs[i]) {
      NothingSaved(key, s.record, own);
      ReplaySnoc(key, s.record, own, e);
    }
    hide RunAfter, Replay, Faithful, Reports, Contract, After, CloudAfter, LockAfter, VouchedAfter, DrawnBy;
    Positions(s.pcs[i], e);
    hide Next;
  }

  /** The run lock is taken by asking for it and left by exiting; nothing is saved without it. */
  lemma Positions(pc: Pc, e: Event)
    requires Next(pc, e).Some?
    ensures var pc' := Next(pc, e).value;
      && (!HoldsLock(pc) ==> !e.Saved? && (HoldsLock(pc') ==> e.Guarded?))
      && (HoldsLock(pc) ==> !e.Guarded? && (HoldsLock(pc') <==> !e.Exited?))
      && (e.Exited? ==> pc' == Idle)
  {
    hide Feasible, OnProbe, DelayFor, OnLaunch, OnLook, OnGet, OnLookup;
  }

  lemma OtherStep(key: Key, s: Global, m: Move, j: nat, met: Option<Record>, own: seq<Event>)
    requires Inv(key, s) && Aligned(key, s, j, met, own) && Allowed(key, s, m) && (m.Act? || m.Crash?) && m.i != j
    ensures Aligned(key, Apply(key, s, m), j, met, own)
  {
    hide RunAfter, Replay;
    if m.Act? && m.e.Saved? {
      Saver(key, s, m.i, m.e);
      assert HoldsLock(s.pcs[j]) ==> s.lock == Some(j);
    }
    hide Inv, Reports, Contract, Next;
  }

  lemma AlignedStep(key: Key, h: History, n: nat, j: nat)
    requires n < |h.moves| && |h.at| == |h.moves| + 1 && Took(key, h, n) && Inv(key, h.at[n])
    requires j < |h.at[n + 1].pcs| && Aligned(key, h.at[n], j, Met(h, n, j), Own(h.moves[..n], j))
    ensures Aligned(key, h.at[n + 1], j, Met(h, n + 1, j), Own(h.moves[..n + 1], j))
  {
    var s, m, met, own := h.at[n], h.moves[n], Met(h, n, j), Own(h.moves[..n], j);
    assert h.moves[..n + 1][..n] == h.moves[..n];
    hide Inv, Allowed, Aligned, RunAfter, Replay;
    if m.Terminate? {
      TerminateAligned(key, s, m.token, j, met, own);
    } else if m.PowerLoss? {
      PowerAligned(key, s, m.back, j);
    } else if m.i != j {
      OtherStep(key, s, m, j, met, own);
    } else if m.Crash? {
      CrashAligned(key, s, j);
    } else {
      OwnStep(key, s, j, m.e, m.born, met, own);
    }
    hide Apply;
  }

  lemma TerminateAligned(key: Key, s: Global, token: string, j: nat, met: Option<Record>, own: seq<Event>)
    requires Aligned(key, s, j, met, own)
    ensures Aligned(key, Apply(key, s, Terminate(token)), j, met, own)
  {
  }

  lemma PowerAligned(key: Key, s: Global, back: Option<Record>, j: nat)
    requires j < |s.pcs| && Allowed(key, s, PowerLoss(back))
    ensures forall met :: Aligned(key, Apply(key, s, PowerLoss(back)), j, met, [])
  {
  }

  lemma CrashAligned(key: Key, s: Global, j: nat)
    requires j < |s.pcs|
    ensures forall met :: Aligned(key, Apply(key, s, Crash(j)), j, met, [])
  {
  }

  /** Up to any point the moves were possible, the invariant holds, and every process is where its events lead. */
  lemma {:induction false} InterleavedAt(key: Key, h: History, n: nat)
    requires Interleaved(key, h) && n <= |h.moves|
    ensures Inv(key, h.at[n])
    ensures forall j: nat | j < |h.at[n].pcs| :: Aligned(key, h.at[n], j, Met(h, n, j), Own(h.moves[..n], j))
    ensures n > 0 ==> Took(key, h, n - 1)
  {
    if n == 0 {
      InitialInv(key, h.at[0]);
    } else {
      InterleavedParts(key, h, n - 1);
      hide *;
      InterleavedAt(key, h, n - 1);
      var s, m := h.at[n - 1], h.moves[n - 1];
      KeptIsAllowed(key, h, n - 1);
      InvStep(key, s, m);
      TookIt(key, h, n - 1);
      forall j: nat | j < |h.at[n].pcs|
        ensures Aligned(key, h.at[n], j, Met(h, n, j), Own(h.moves[..n], j))
      {
        AlignedStep(key, h, n - 1, j);
      }
    }
  }

  lemma InterleavedParts(key: Key, h: History, n: nat)
    requires Interleaved(key, h) && n < |h.moves|
    ensures |h.at| == |h.moves| + 1 && Leads(key, h, n) && Kept(key, h, n)
  {
    hide Leads, Kept, Initial;
  }

  lemma TookIt(key: Key, h: History, n: nat)
    requires n < |h.moves| && |h.at| == |h.moves| + 1 && Leads(key, h, n) && Allowed(key, h.at[n], h.moves[n])
    ensures Took(key, h, n) && h.at[n + 1] == Apply(key, h.at[n], h.moves[n]) && |h.at[n + 1].pcs| == |h.at[n].pcs|
  {
    SamePcs(key, h.at[n], h.moves[n]);
    hide Apply, Allowed;
  }

  lemma SamePcs(key: Key, s: Global, m: Move)
    ensures |Apply(key, s, m).pcs| == |s.pcs|
  {
    hide Next;
  }

  lemma KeptIsAllowed(key: Key, h: History, n: nat)
    requires n < |h.moves| < |h.at| && Kept(key, h, n)
    requires forall j: nat | j < |h.at[n].pcs| :: Aligned(key, h.at[n], j, Met(h, n, j), Own(h.moves[..n], j))
    ensures Allowed(key, h.at[n], h.moves[n])
  {
    hide Aligned, Contract, Truthful, Reports, Next;
    match h.moves[n]
    case Act(i, e, born) => OwnIsAllowed(key, h.at[n], i, e, born, Met(h, n, i), Own(h.moves[..n], i));
    case _ =>
  }

  /** Any interleaving of processes that run the code, with crashes and terminations, is a run of the protocol: that
      each process believes itself alone with the record is justified by the run lock. */
  lemma InterleavedIsRun(key: Key, h: History)
    requires Interleaved(key, h)
    ensures Reachable(key, h)
  {
    forall n: nat | n < |h.moves|
      ensures Took(key, h, n)
    {
      InterleavedAt(key, h, n + 1);
    }
  }

  /** So at most one instance is alive whatever the processes do, as long as no expired decision misses a live one. */
  lemma InterleavedAtMostOne(key: Key, h: History, n: nat)
    requires Interleaved(key, h) && InformedRun(key, h) && n <= |h.moves|
    ensures |Live(h.at[n])| <= 1
  {
    InterleavedIsRun(key, h);
    hide Interleaved, Reachable, InformedRun, Live;
    AtMostOneInstance(key, h, n);
  }
}
