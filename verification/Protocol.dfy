/** Any number of processes running the runner automaton against one durable record, one run lock and one cloud, cut by
    crashes, power losses and outside terminations at any point. */
module Protocol {
  import opened Basics
  import opened Reconcile
  import opened State
  import opened Events
  import opened LaunchSpec
  import opened RunnerSpec

  /** An instance the cloud created for a retry token. */
  datatype CloudVm = CloudVm(id: string, alive: bool)

  /** `older`: the records that a power loss may bring back instead of `record`, because no directory sync has
      succeeded since they were replaced. `used`: tokens ever drawn. `sent`: tokens of all launch calls in order.
      `vouched`: instance ids that were observed with our tags or created by a launch that carries them. */
  datatype Global = Global(record: Option<Record>, older: set<Option<Record>>, cloud: map<string, CloudVm>,
                           lock: Option<nat>, pcs: seq<Pc>, used: set<string>, sent: seq<string>, vouched: set<string>)

  /** A process acts (`born` is the instance a launch call creates, answered or not), dies, the host loses power and
      finds the record `back`, or somebody terminates an instance. */
  datatype Move =
    | Act(i: nat, e: Event, born: Option<string>)
    | Crash(i: nat)
    | PowerLoss(back: Option<Record>)
    | Terminate(token: string)

  function DrawnBy(key: Key, e: Event): set<string> {
    if e.Saved? && DrawsToken(key, e.write, e.before, e.now) then
      var a := NewAttempt(e.write.draw, e.now, ATTEMPT_VALIDITY);
      if a.Some? then {a.value.token} else {}
    else {}
  }

  function OwnedIds(key: Key, seen: seq<Instance>): set<string> {
    set x | x in seen && Counts(x, key.target, key.account) :: x.id
  }

  function CloudIds(s: Global): set<string> {
    set t | t in s.cloud :: s.cloud[t].id
  }

  function Live(s: Global): set<string> {
    set t | t in s.cloud && s.cloud[t].alive
  }

  function CloudAfter(s: Global, e: Event, born: Option<string>): map<string, CloudVm> {
    if e.Launched? && born.Some? then s.cloud[e.request.token := CloudVm(born.value, true)] else s.cloud
  }

  function VouchedAfter(key: Key, s: Global, e: Event, born: Option<string>): set<string> {
    match e
    case Discovered(_, seen) => s.vouched + OwnedIds(key, seen)
    case Launched(_, _, _) => if born.Some? then s.vouched + {born.value} else s.vouched
    case _ => s.vouched
  }

  /** A save that succeeds has synced the directory; one that fails after the rename has not. */
  function OlderAfter(s: Global, e: Event): set<Option<Record>> {
    if !e.Saved? || !e.out.written then s.older
    else if e.out.ok then {}
    else s.older + {s.record}
  }

  function LockAfter(s: Global, i: nat, e: Event): Option<nat> {
    if e == Guarded(true) then Some(i)
    else if e.Exited? && s.lock == Some(i) then None
    else s.lock
  }

  function Apply(key: Key, s: Global, m: Move): Global {
    match m
    case Act(i, e, born) =>
      if i < |s.pcs| && Next(s.pcs[i], e).Some? then
        Global(Effect(key, s.record, e), OlderAfter(s, e), CloudAfter(s, e, born), LockAfter(s, i, e),
               s.pcs[i := Next(s.pcs[i], e).value], s.used + DrawnBy(key, e),
               if e.Launched? then s.sent + [e.request.token] else s.sent, VouchedAfter(key, s, e, born))
      else s
    case Crash(i) =>
      if i < |s.pcs| then s.(pcs := s.pcs[i := Idle], lock := if s.lock == Some(i) then None else s.lock) else s
    case PowerLoss(back) =>
      if back == s.record || back in s.older
      then s.(record := back, older := {}, lock := None, pcs := seq(|s.pcs|, i => Idle)) else s
    case Terminate(token) =>
      if token in s.cloud then s.(cloud := s.cloud[token := s.cloud[token].(alive := false)]) else s
  }

  /** What the lock, the random source and the provider promise. The provider: a token stands for at most one instance
      ever, a token that has one never answers out-of-capacity, identifiers are new and not empty, what it finds
      behind a service limit is an instance that a launch of ours created, and an error while looking for it is not an
      out-of-capacity error. Observations may be anything. */
  predicate Contract(key: Key, s: Global, e: Event, born: Option<string>) {
    && (!e.Launched? ==> born.None?)
    && match e
       case Discovered(setup, seen) => setup.key == key && forall x | x in seen :: x.id != ""
       case Guarded(ok) => ok ==> s.lock.None?
       case Saved(_, _, _, _) => DrawnBy(key, e) !! s.used
       case Launched(request, answer, _) =>
         && (born.Some? ==> request.token !in s.cloud && born.value != "" && born.value !in CloudIds(s))
         && (answer.kind == OutOfCapacity ==> request.token !in s.cloud && born.None?)
         && (answer.kind == Accepted && answer.id != "" ==>
               request.token in CloudAfter(s, e, born) && CloudAfter(s, e, born)[request.token].id == answer.id)
       case Looked(_, look, _) =>
         look != LookFailed(Some(OutOfCapacity)) && (look.Found? ==> look.id != "" && look.id in CloudIds(s))
       case Fetched(id, Got(vm), _) => vm.id == id
       case _ => true
  }

  predicate Allowed(key: Key, s: Global, m: Move) {
    match m
    case Act(i, e, born) =>
      i < |s.pcs| && Next(s.pcs[i], e).Some? && Reports(key, s.record, e) && Contract(key, s, e, born)
    case Crash(i) => i < |s.pcs|
    case PowerLoss(back) => back == s.record || back in s.older
    case Terminate(token) => token in s.cloud
  }

  // --- the one observation that must be current ----------------------------------------------------------------------

  /** The move replaces an expired attempt because no instance was observed. */
  predicate ExpiredDecision(key: Key, s: Global, m: Move) {
    m.Act? && m.e.Saved? && m.e.write.Settled? && s.record.Some? && !NoAttempt(s.record.value)
    && VerdictOn(key, m.e.write.seen, s.record, m.e.now).kind == NewAttemptSafe
  }

  predicate SeesLive(key: Key, s: Global, seen: seq<Instance>) {
    forall t | t in Live(s) :: s.cloud[t].id in OwnedIds(key, seen)
  }

  /** No instance alive at an expired decision is missing from its observation. */
  predicate Informed(key: Key, s: Global, m: Move) {
    ExpiredDecision(key, s, m) ==> SeesLive(key, s, m.e.write.seen)
  }

  predicate Initial(s: Global) {
    && s.record.None? && s.older == {} && s.cloud == map[] && s.lock.None?
    && s.used == {} && s.sent == [] && s.vouched == {}
    && forall i | 0 <= i < |s.pcs| :: s.pcs[i] == Idle
  }

  /** Moves with the states between them: `at[n]` is the state in which move number `n` is made. */
  datatype History = History(at: seq<Global>, moves: seq<Move>)

  /** Move number `n` was possible, and led to the next state. */
  predicate Took(key: Key, h: History, n: nat)
    requires n < |h.moves| && |h.at| == |h.moves| + 1
  {
    Allowed(key, h.at[n], h.moves[n]) && h.at[n + 1] == Apply(key, h.at[n], h.moves[n])
  }

  predicate IsRun(key: Key, h: History) {
    |h.at| == |h.moves| + 1 && forall n: nat | n < |h.moves| :: Took(key, h, n)
  }

  /** A run from the very beginning. */
  predicate Reachable(key: Key, h: History) {
    IsRun(key, h) && Initial(h.at[0])
  }

  predicate InformedAt(key: Key, h: History, n: nat)
    requires n < |h.moves| < |h.at|
  {
    Informed(key, h.at[n], h.moves[n])
  }

  predicate InformedRun(key: Key, h: History)
    requires |h.moves| < |h.at|
  {
    forall n: nat | n < |h.moves| :: InformedAt(key, h, n)
  }

  // --- one clock -----------------------------------------------------------------------------------------------------

  /** The time after a move, `t` being the time before it: the last one that the move mentions. */
  function TimeAfter(t: Time, m: Move): Time {
    if !m.Act? then t else if m.e.Saved? then m.e.now else LatestAfter(t, m.e)
  }

  /** The move does not set the clock back, and a sleep that is over has lasted. */
  predicate NotEarlier(t: Time, m: Move) {
    m.Act? ==> if m.e.Saved? then m.e.now >= t else OnTime(t, m.e)
  }

  function ClockOf(ms: seq<Move>, from: Time): Time {
    if ms == [] then from else TimeAfter(ClockOf(ms[..|ms| - 1], from), ms[|ms| - 1])
  }

  /** All moves follow one clock that shows `from` at the start and never goes back. */
  predicate Forward(ms: seq<Move>, from: Time) {
    ms == [] || (Forward(ms[..|ms| - 1], from) && NotEarlier(ClockOf(ms[..|ms| - 1], from), ms[|ms| - 1]))
  }

  lemma ForwardSnoc(ms: seq<Move>, from: Time, m: Move)
    ensures Forward(ms + [m], from) <==> Forward(ms, from) && NotEarlier(ClockOf(ms, from), m)
    ensures ClockOf(ms + [m], from) == TimeAfter(ClockOf(ms, from), m)
  {
    assert (ms + [m])[..|ms + [m]| - 1] == ms;
    hide NotEarlier, TimeAfter;
  }

  // --- the invariant -------------------------------------------------------------------------------------------------

  predicate HoldsLock(pc: Pc) {
    pc.Holding? || pc.Leaving? || pc.Chosen? || pc.Watching? || pc.Launching?
  }

  predicate Vouched(s: Global, id: string) {
    id == "" || id in s.vouched
  }

  predicate TokenIs(r: Option<Record>, token: string) {
    r.Some? && r.value.token == token
  }

  /** The record has this token, whatever a power loss may do to it. */
  predicate Durable(s: Global, token: string) {
    TokenIs(s.record, token) && forall r | r in s.older :: TokenIs(r, token)
  }

  /** A create-safe decision goes with the attempt in the durable record. */
  predicate DecisionOk(key: Key, s: Global, setup: Setup, d: Decision) {
    && setup.key == key && Vouched(s, d.instanceID)
    && (CreateSafe(d.kind) ==>
          d.instanceID == "" && d.attempt.Some? && Complete(d.attempt.value) && Durable(s, d.attempt.value.token))
  }

  predicate LaunchOk(s: Global, d: Decision, launch: LaunchInput, l: LaunchPc) {
    match l
    case Requesting(_) => CreateSafe(d.kind)
    case Backing(_, _) => CreateSafe(d.kind)
    case Looking(_) => CreateSafe(d.kind)
    case Accepting(_, id) => CreateSafe(d.kind) && id != "" && Vouched(s, id)
    case Failing(kind) => kind != Some(OutOfCapacity)
    case Polling(id) => id != "" && Vouched(s, id)
    case Pausing(id) => id != "" && Vouched(s, id)
    case AwaitingIP(id, vm, _) => id != "" && Vouched(s, id) && vm.id == id
    case LookingUp(id, vm, _) => id != "" && Vouched(s, id) && vm.id == id
    case Finishing(id, vm) => id != "" && Vouched(s, id) && vm.id == id
    case Done(Provisioned(vm)) => vm.id != "" && Vouched(s, vm.id)
    case Done(LaunchError(kind)) => kind == Some(OutOfCapacity) ==> launch.request.token !in s.cloud
  }

  predicate ObservationOk(key: Key, s: Global, setup: Setup, seen: seq<Instance>) {
    setup.key == key && OwnedIds(key, seen) <= s.vouched && forall x | x in seen :: x.id != ""
  }

  predicate PcOk(key: Key, s: Global, pc: Pc) {
    match pc
    case Observed(setup, seen) => ObservationOk(key, s, setup, seen)
    case Holding(setup, seen) => ObservationOk(key, s, setup, seen)
    case Chosen(setup, d) => DecisionOk(key, s, setup, d)
    case Watching(setup, d, _, _) => DecisionOk(key, s, setup, d) && CreateSafe(d.kind)
    case Launching(setup, d, launch, l) =>
      DecisionOk(key, s, setup, d) && launch == LaunchPlan(setup, d) && LaunchOk(s, d, launch, l)
    case _ => true
  }

  predicate LockInv(s: Global) {
    forall i | 0 <= i < |s.pcs| :: HoldsLock(s.pcs[i]) ==> s.lock == Some(i)
  }

  predicate PcsInv(key: Key, s: Global) {
    forall i | 0 <= i < |s.pcs| :: PcOk(key, s, s.pcs[i])
  }

  predicate UsedToken(s: Global, r: Option<Record>) {
    r.Some? && !NoAttempt(r.value) ==> r.value.token in s.used
  }

  predicate TokensInv(s: Global) {
    && "" !in s.used
    && (forall t | t in s.cloud :: t in s.used && s.cloud[t].id in s.vouched)
    && UsedToken(s, s.record) && (forall r | r in s.older :: UsedToken(s, r))
    && (forall k | 0 <= k < |s.sent| :: s.sent[k] in s.used)
  }

  predicate RecordOk(key: Key, s: Global, r: Option<Record>) {
    WellformedOption(key, r) && (r.Some? ==> Vouched(s, r.value.instanceID))
  }

  predicate RecordInv(key: Key, s: Global) {
    RecordOk(key, s, s.record) && forall r | r in s.older :: RecordOk(key, s, r)
  }

  /** If the record's token was ever sent, it was sent last. */
  predicate LastSent(s: Global, r: Option<Record>) {
    r.Some? && r.value.token in s.sent ==> s.sent[|s.sent| - 1] == r.value.token
  }

  /** Launches of one token are consecutive, the current token's are the last, and a token that was sent is durable
      while it is current. */
  predicate BlocksInv(s: Global) {
    && (forall a, b, c | 0 <= a <= b <= c < |s.sent| && s.sent[a] == s.sent[c] :: s.sent[b] == s.sent[a])
    && LastSent(s, s.record) && (forall r | r in s.older :: LastSent(s, r))
    && (s.record.Some? && s.record.value.token in s.sent ==> Durable(s, s.record.value.token))
  }

  predicate Inv(key: Key, s: Global) {
    LockInv(s) && PcsInv(key, s) && TokensInv(s) && RecordInv(key, s) && BlocksInv(s)
  }

  /** Only the token in the record has a live instance, whatever a power loss may do to the record. */
  predicate LiveInv(s: Global) {
    forall t | t in s.cloud && s.cloud[t].alive :: Durable(s, t)
  }
}
