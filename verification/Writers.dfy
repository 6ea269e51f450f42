/** The read-modify-write clients of one state file, interleaved at the grain of lock, load, save and close, behave like
    atomic updates in the order of their commits. */
module Writers {
  import opened Basics
  import opened State

  /** What one client is doing: `Loaded` remembers the record it read. */
  datatype Client = Outside | Locked(write: Write) | Loaded(write: Write, before: Option<Record>) | Finished

  datatype Commit = Commit(write: Write, now: Time)

  datatype Shared = Shared(file: Option<Record>, holder: Option<nat>, clients: seq<Client>, commits: seq<Commit>)

  datatype Action =
    | Lock(i: nat, write: Write)
    | Read(i: nat)
    | Save(i: nat, now: Time, out: Outcome)
    | Release(i: nat)

  /** The client's own value, computed from what it loaded, becomes the file when the save is written. */
  function Written(key: Key, client: Client, now: Time, out: Outcome, file: Option<Record>): Option<Record>
    requires client.Loaded?
  {
    if !out.written then file
    else
      var value := Change(key, client.write, client.before, now);
      if value.Some? then Accept(key, value.value) else file
  }

  predicate Enabled(key: Key, s: Shared, a: Action) {
    a.i < |s.clients| &&
    match a
    case Lock(i, _) => s.clients[i].Outside? && s.holder.None?
    case Read(i) => s.clients[i].Locked?
    case Save(i, now, out) => s.clients[i].Loaded? && Feasible(key, s.clients[i].write, s.clients[i].before, now, out)
    case Release(i) => !s.clients[i].Outside?
  }

  /** `Release` is a close after a save, after an error, or the death of the process. */
  function Do(key: Key, s: Shared, a: Action): Shared
    requires Enabled(key, s, a)
  {
    match a
    case Lock(i, write) => s.(holder := Some(i), clients := s.clients[i := Locked(write)])
    case Read(i) => s.(clients := s.clients[i := Loaded(s.clients[i].write, s.file)])
    case Save(i, now, out) =>
      s.(file := Written(key, s.clients[i], now, out, s.file), clients := s.clients[i := Finished],
         commits := if out.written then s.commits + [Commit(s.clients[i].write, now)] else s.commits)
    case Release(i) => s.(holder := None, clients := s.clients[i := Outside])
  }

  /** The committed writes as atomic updates, one after the other. */
  function Serial(key: Key, initial: Option<Record>, commits: seq<Commit>): Option<Record> {
    if commits == [] then initial
    else
      var last := commits[|commits| - 1];
      After(key, last.write, Serial(key, initial, commits[..|commits| - 1]), last.now, Outcome(true, true))
  }

  /** Where a sequence of actions leads, if each is possible when it is taken. */
  function Result(key: Key, s: Shared, actions: seq<Action>): Option<Shared> {
    if actions == [] then Some(s)
    else
      var before := Result(key, s, actions[..|actions| - 1]);
      if before.Some? && Enabled(key, before.value, actions[|actions| - 1])
      then Some(Do(key, before.value, actions[|actions| - 1])) else None
  }

  predicate Quiet(s: Shared) {
    s.holder.None? && s.commits == [] && forall i | 0 <= i < |s.clients| :: s.clients[i].Outside?
  }

  predicate SharedInv(key: Key, initial: Option<Record>, s: Shared) {
    && s.file == Serial(key, initial, s.commits)
    && forall i | 0 <= i < |s.clients| :: !s.clients[i].Outside? ==>
         s.holder == Some(i) && (s.clients[i].Loaded? ==> s.clients[i].before == s.file)
  }

  lemma SharedStep(key: Key, initial: Option<Record>, s: Shared, a: Action)
    requires SharedInv(key, initial, s) && Enabled(key, s, a)
    ensures SharedInv(key, initial, Do(key, s, a))
  {
    if a.Save? && a.out.written {
      var client := s.clients[a.i];
      var commits := s.commits + [Commit(client.write, a.now)];
      assert commits[..|commits| - 1] == s.commits;
    }
  }

  /** However the clients interleave, fail and die, the file is what the committed writes produce as atomic updates in
      commit order: nobody's update is lost or based on a stale read, and only one client is ever inside. */
  lemma {:induction false} Linearizable(key: Key, s: Shared, actions: seq<Action>)
    requires Quiet(s) && Result(key, s, actions).Some?
    ensures SharedInv(key, s.file, Result(key, s, actions).value)
  {
    if actions != [] {
      Linearizable(key, s, actions[..|actions| - 1]);
      SharedStep(key, s.file, Result(key, s, actions[..|actions| - 1]).value, actions[|actions| - 1]);
    }
  }

  /** In particular all clients together keep the record well formed. */
  lemma {:induction false} SerialKeepsRecord(key: Key, initial: Option<Record>, commits: seq<Commit>)
    requires WellformedOption(key, initial) && forall c | c in commits :: Named(c.write)
    ensures WellformedOption(key, Serial(key, initial, commits))
    ensures initial.Some? && !NoAttempt(initial.value) ==>
      Serial(key, initial, commits).Some? && !NoAttempt(Serial(key, initial, commits).value)
  {
    if commits != [] {
      var before, last := commits[..|commits| - 1], commits[|commits| - 1];
      assert last in commits;
      SerialKeepsRecord(key, initial, before);
      ClientsKeepRecord(key, last.write, Serial(key, initial, before), last.now, Outcome(true, true));
    }
  }
}
