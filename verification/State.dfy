/** internal/state/state.go and its four read-modify-write clients: the durable record of one account and target. */
module State {
  import opened Basics
  import opened Reconcile

  const SCHEMA_VERSION := 1

  datatype Phase = Discovered | Waiting | Provisioning | Running | Failed | Unsupported(name: string)

  datatype Record = Record(
    schema: int,
    account: string,
    target: string,
    phase: Phase,
    attemptID: string,
    token: string,
    attemptValidTo: Time,
    lastAttempt: Time,
    lastResult: string,
    selectedAD: string,
    retryCount: nat,
    nextAttempt: Time,
    instanceID: string,
    publicIP: string,
    lastError: string,
    updatedAt: Time)

  /** The account and target a run lock, a state lock and a state file belong to. */
  datatype Key = Key(account: string, target: string)

  /** `Save` accepts records with this key. */
  predicate Usable(key: Key) {
    !Blank(key.account) && !Blank(key.target)
  }

  function Empty(key: Key): Record {
    Record(0, key.account, key.target, Discovered, "", "", 0, 0, "", "", 0, 0, "", "", "", 0)
  }

  /** `State.ReconcileState` */
  function LocalOf(r: Record): Local {
    Local(r.target, r.instanceID,
      if r.attemptID != "" || r.token != "" || r.attemptValidTo != 0
      then Some(Attempt(r.attemptID, r.token, r.attemptValidTo)) else None)
  }

  function LocalOption(r: Option<Record>): Option<Local> {
    if r.Some? then Some(LocalOf(r.value)) else None
  }

  /** `validate` */
  predicate Valid(r: Record) {
    !Blank(r.account) && !Blank(r.target) && !r.phase.Unsupported? && r.updatedAt != 0
  }

  /** What `Locked.Save` stores, or nothing when it refuses the value. */
  function Accept(key: Key, value: Record): Option<Record> {
    if value.account != key.account || value.target != key.target || !Valid(value) then None
    else Some(value.(schema := SCHEMA_VERSION))
  }

  datatype ProbeKind =
    | Available | Unavailable | ProbeUnavailable | Throttled | Transient | Fatal | Canceled | Unset
    | Other(name: string)

  function KindText(kind: ProbeKind): string {
    match kind
    case Available => "available"
    case Unavailable => "unavailable"
    case ProbeUnavailable => "probe_unavailable"
    case Throttled => "throttled"
    case Transient => "transient"
    case Fatal => "fatal"
    case Canceled => "canceled"
    case Unset => ""
    case Other(name) => name
  }

  /** Watcher progress: `capacity.State` without its target. */
  datatype Progress = Progress(lastAD: string, nextAD: int, retryCount: nat, nextAttempt: Time, status: ProbeKind)

  /** A launched instance as the provider describes it. */
  datatype Vm = Vm(id: string, state: string, publicIP: string)

  /** One save attempted by one of the four clients. */
  datatype Write =
    | Settled(seen: seq<Instance>, draw: Option<seq<Byte>>)
    | Rotated(draw: Option<seq<Byte>>)
    | Progressed(progress: Progress)
    | LaunchAccepted(id: string)
    | LaunchFinished(vm: Vm)
    | LaunchFailed(text: string)

  /** `ok` is a nil error; a save may also fail after the rename, leaving the new record behind an error. */
  datatype Outcome = Outcome(written: bool, ok: bool)

  predicate Possible(out: Outcome) {
    out.ok ==> out.written
  }

  /** The input of the decision that a settled save takes. */
  function InputOn(key: Key, seen: seq<Instance>, before: Option<Record>, now: Time): Input {
    Input(key.target, key.account, LocalOption(before), seen, now)
  }

  function VerdictOn(key: Key, seen: seq<Instance>, before: Option<Record>, now: Time): Decision {
    Verdict(InputOn(key, seen, before, now))
  }

  function WithAttempt(r: Record, attempt: Attempt, now: Time): Record {
    r.(phase := Provisioning, attemptID := attempt.id, token := attempt.token,
       attemptValidTo := attempt.validUntil, lastAttempt := now)
  }

  /** `reconcileAndPersist` */
  function Settle(key: Key, seen: seq<Instance>, draw: Option<seq<Byte>>, before: Option<Record>, now: Time)
    : Option<Record>
  {
    var d := VerdictOn(key, seen, before, now);
    var base := if before.Some? then before.value else Empty(key);
    var r := base.(lastResult := d.reason, updatedAt := now);
    match d.kind
    case AlreadySatisfied => Some(r.(phase := Running, instanceID := d.instanceID))
    case ResumeReconcile => Some(r.(phase := Provisioning))
    case RetrySameAttempt => Some(r.(phase := Provisioning))
    case Conflict => Some(r.(phase := Failed, lastError := d.reason))
    case _ =>
      var attempt := NewAttempt(draw, now, ATTEMPT_VALIDITY);
      if attempt.None? then None else Some(WithAttempt(r, attempt.value, now))
  }

  /** `newAttemptAndPersist` */
  function Rotate(draw: Option<seq<Byte>>, before: Record, now: Time): Option<Record> {
    var attempt := NewAttempt(draw, now, ATTEMPT_VALIDITY);
    if attempt.None? then None
    else Some(WithAttempt(before, attempt.value, now).(updatedAt := now, instanceID := "", lastError := ""))
  }

  function PhaseOf(status: ProbeKind): Phase {
    match status
    case Available => Provisioning
    case ProbeUnavailable => Provisioning
    case Fatal => Failed
    case _ => Waiting
  }

  /** The record a client hands to `Save`, or nothing when it gives up earlier. */
  function Change(key: Key, w: Write, before: Option<Record>, now: Time): Option<Record> {
    if w.Settled? then Settle(key, w.seen, w.draw, before, now)
    else if before.None? then None
    else
      var r := before.value.(updatedAt := now);
      match w
      case Rotated(draw) => Rotate(draw, before.value, now)
      case Progressed(p) =>
        Some(r.(phase := PhaseOf(p.status), selectedAD := p.lastAD, retryCount := p.retryCount,
                nextAttempt := p.nextAttempt, lastResult := KindText(p.status)))
      case LaunchAccepted(id) => Some(r.(phase := Provisioning, instanceID := id, lastResult := "launch accepted"))
      case LaunchFinished(vm) =>
        Some(r.(phase := Running, instanceID := vm.id, publicIP := vm.publicIP, lastResult := vm.state,
                lastError := ""))
      case LaunchFailed(text) => Some(r.(phase := Failed, lastError := text))
  }

  /** The durable record after a client's save, given what became of it. */
  function After(key: Key, w: Write, before: Option<Record>, now: Time, out: Outcome): Option<Record> {
    var value := Change(key, w, before, now);
    if out.written && value.Some? && Accept(key, value.value).Some? then Accept(key, value.value) else before
  }

  /** A save can only be written when its client reached `Save` and `Save` accepted the value. */
  predicate Feasible(key: Key, w: Write, before: Option<Record>, now: Time, out: Outcome) {
    var value := Change(key, w, before, now);
    Possible(out) && (out.written ==> value.Some? && Accept(key, value.value).Some?)
  }

  // --- what every client keeps ---------------------------------------------------------------------------------

  predicate NoAttempt(r: Record) {
    r.attemptID == "" && r.token == "" && r.attemptValidTo == 0
  }

  predicate Wellformed(key: Key, r: Record) {
    && r.account == key.account && r.target == key.target && Valid(r) && r.schema == SCHEMA_VERSION
    && (NoAttempt(r) ||
        (Complete(Attempt(r.attemptID, r.token, r.attemptValidTo)) && r.attemptValidTo >= ATTEMPT_VALIDITY))
    && (r.phase == Running ==> r.instanceID != "")
  }

  predicate WellformedOption(key: Key, r: Option<Record>) {
    r.Some? ==> Wellformed(key, r.value)
  }

  /** The provider never reports an instance without an identifier. */
  predicate Named(w: Write) {
    match w
    case Settled(seen, _) => forall x | x in seen :: x.id != ""
    case LaunchAccepted(id) => id != ""
    case LaunchFinished(vm) => vm.id != ""
    case _ => true
  }

  predicate DrawsToken(key: Key, w: Write, before: Option<Record>, now: Time) {
    w.Rotated? || (w.Settled? && VerdictOn(key, w.seen, before, now).kind in {Create, NewAttemptSafe})
  }

  lemma AlreadySatisfiedIsNamed(key: Key, seen: seq<Instance>, before: Option<Record>, now: Time)
    requires VerdictOn(key, seen, before, now).kind in {AlreadySatisfied, ResumeReconcile}
    ensures exists x :: x in seen && Counts(x, key.target, key.account)
                     && x.id == VerdictOn(key, seen, before, now).instanceID
  {
    var found := Counted(seen, key.target, key.account);
    CountedMember(seen, key.target, key.account, found[0]);
    assert found[0] in found;
  }

  /** What a save keeps when `after` is what it leaves. */
  predicate Keeps(key: Key, w: Write, before: Option<Record>, now: Time, after: Option<Record>) {
    && WellformedOption(key, after)
    && (before.Some? ==> after.Some? && (!NoAttempt(before.value) ==> !NoAttempt(after.value)))
    && (after != before && DrawsToken(key, w, before, now) ==>
          var a := NewAttempt(w.draw, now, ATTEMPT_VALIDITY);
          a.Some? && LocalOf(after.value).attempt == a)
    && (before.Some? && !DrawsToken(key, w, before, now) ==>
          LocalOf(after.value).attempt == LocalOf(before.value).attempt)
    && (before.None? && after.Some? && !DrawsToken(key, w, before, now) ==> NoAttempt(after.value))
  }

  lemma DrawnIsKept(key: Key, r: Record, attempt: Attempt)
    requires r.account == key.account && r.target == key.target && Valid(r) && r.schema == SCHEMA_VERSION
    requires r.attemptID == attempt.id && r.token == attempt.token && r.attemptValidTo == attempt.validUntil
    requires Complete(attempt) && attempt.validUntil >= ATTEMPT_VALIDITY && r.phase != Running
    ensures Wellformed(key, r) && !NoAttempt(r) && LocalOf(r).attempt == Some(attempt)
  {
    assert attempt.validUntil != 0;
  }

  lemma SettledKeeps(key: Key, w: Write, before: Option<Record>, now: Time, value: Record)
    requires WellformedOption(key, before) && Named(w) && w.Settled?
    requires Change(key, w, before, now) == Some(value) && Accept(key, value).Some?
    ensures Keeps(key, w, before, now, Accept(key, value))
  {
    hide Verdict, NewAttempt, Complete, Blank;
    var d := VerdictOn(key, w.seen, before, now);
    if d.kind in {Create, NewAttemptSafe} {
      NewAttemptIsFresh(w.draw, w.draw, now, now);
      DrawnIsKept(key, Accept(key, value).value, NewAttempt(w.draw, now, ATTEMPT_VALIDITY).value);
    } else if d.kind == AlreadySatisfied {
      AlreadySatisfiedIsNamed(key, w.seen, before, now);
    }
  }

  lemma ChangedKeeps(key: Key, w: Write, before: Option<Record>, now: Time, value: Record)
    requires WellformedOption(key, before) && Named(w) && !w.Settled?
    requires Change(key, w, before, now) == Some(value) && Accept(key, value).Some?
    ensures Keeps(key, w, before, now, Accept(key, value))
  {
    hide Verdict, NewAttempt, Complete, Blank;
    if w.Rotated? {
      NewAttemptIsFresh(w.draw, w.draw, now, now);
      DrawnIsKept(key, Accept(key, value).value, NewAttempt(w.draw, now, ATTEMPT_VALIDITY).value);
    }
  }

  /** Whatever client writes, and whatever becomes of the save: identity stays, an attempt is wholly absent or
      complete, one that is present never disappears, it is replaced only by a freshly drawn one, and `Running` names
      an instance. */
  lemma ClientsKeepRecord(key: Key, w: Write, before: Option<Record>, now: Time, out: Outcome)
    requires WellformedOption(key, before) && Named(w)
    ensures Keeps(key, w, before, now, After(key, w, before, now, out))
  {
    hide Change, Accept, Wellformed;
    var value := Change(key, w, before, now);
    if value.Some? && Accept(key, value.value).Some? {
      if w.Settled? {
        SettledKeeps(key, w, before, now, value.value);
      } else {
        ChangedKeeps(key, w, before, now, value.value);
      }
    }
    NothingKeeps(key, w, before, now);
  }

  lemma NothingKeeps(key: Key, w: Write, before: Option<Record>, now: Time)
    requires WellformedOption(key, before)
    ensures Keeps(key, w, before, now, before)
  {
    hide Wellformed, Verdict, NewAttempt;
  }

  /** The instance a save may put into the record: the one already there, none, or the one that the write names. */
  lemma NamesAfter(key: Key, w: Write, before: Option<Record>, now: Time, out: Outcome)
    ensures var after := After(key, w, before, now, out);
      after.Some? && after.value.instanceID != "" ==>
        || (before.Some? && after.value.instanceID == before.value.instanceID)
        || (w.Settled? && VerdictOn(key, w.seen, before, now).kind == AlreadySatisfied
            && after.value.instanceID == VerdictOn(key, w.seen, before, now).instanceID)
        || (w.LaunchAccepted? && after.value.instanceID == w.id)
        || (w.LaunchFinished? && after.value.instanceID == w.vm.id)
  {
    hide Verdict, NewAttempt, Valid;
  }

  /** The observation shows `x`, active and alone, and the record does not speak of another instance. */
  predicate ShowsRunning(input: Input, x: Instance) {
    Ours(input) && Only(input, x) && x.lifecycle == Active && !Differs(input.local, x)
  }

  /** A settled save leaves a running record exactly when one active instance of ours was observed and is not another
      than the recorded one; the record then names it. It leaves a failed one exactly when no decision is safe. */
  lemma SettledPhaseExactly(key: Key, seen: seq<Instance>, draw: Option<seq<Byte>>, before: Option<Record>, now: Time,
                              out: Outcome)
    requires Feasible(key, Settled(seen, draw), before, now, out) && out.written
    ensures var r, input := After(key, Settled(seen, draw), before, now, out), InputOn(key, seen, before, now);
      && r.Some?
      && (r.value.phase == Running <==> exists x :: ShowsRunning(input, x))
      && (forall x | ShowsRunning(input, x) :: r.value.instanceID == x.id)
      && (r.value.phase == Failed <==> Contested(input))
      && r.value.lastAttempt == (if DrawsToken(key, Settled(seen, draw), before, now) then now
                                 else if before.Some? then before.value.lastAttempt else 0)
      && (r.value.phase == Failed ==> r.value.lastError == r.value.lastResult)
      && r.value.phase in {Running, Failed, Provisioning}
      && (r.value.phase != Running ==>
            r.value.instanceID == if before.Some? then before.value.instanceID else "")
  {
    var input := InputOn(key, seen, before, now);
    DecisionExactly(input);
    if Verdict(input).kind == AlreadySatisfied {
      var x :| Only(input, x) && x.lifecycle == Active && !Differs(input.local, x);
      assert ShowsRunning(input, x);
    }
    hide Verdict, NewAttempt, Valid, Only, Nothing, Counts, Complete, Contested, Ours, Differs;
  }

  /** What a written save of the other clients leaves for the next run to find. */
  lemma WrittenIsFound(key: Key, w: Write, before: Option<Record>, now: Time, out: Outcome)
    requires Feasible(key, w, before, now, out) && out.written && !w.Settled?
    ensures before.Some? && After(key, w, before, now, out).Some?
    ensures var old', r := before.value, After(key, w, before, now, out).value;
      && r.updatedAt == now && r.account == key.account && r.target == key.target && r.schema == SCHEMA_VERSION
      && (w.LaunchAccepted? ==>
            && r.phase == Provisioning && r.instanceID == w.id && r.publicIP == old'.publicIP
            && r.lastResult == "launch accepted")
      && (w.LaunchFinished? ==>
            && r.phase == Running && r.instanceID == w.vm.id && r.publicIP == w.vm.publicIP
            && r.lastResult == w.vm.state && r.lastError == "")
      && (w.LaunchFailed? ==> r.phase == Failed && r.instanceID == old'.instanceID && r.lastError == w.text)
      && (w.Rotated? ==>
            && r.phase == Provisioning && r.instanceID == "" && r.lastError == ""
            && LocalOf(r).attempt == NewAttempt(w.draw, now, ATTEMPT_VALIDITY))
      && (w.Progressed? ==>
            && (r.phase == Provisioning <==> w.progress.status == Available || w.progress.status == ProbeUnavailable)
            && (r.phase == Failed <==> w.progress.status == Fatal)
            && r.phase in {Provisioning, Failed, Waiting} && r.instanceID == old'.instanceID
            && r.selectedAD == w.progress.lastAD && r.retryCount == w.progress.retryCount
            && r.nextAttempt == w.progress.nextAttempt && r.lastResult == KindText(w.progress.status))
      && (!w.Progressed? ==>
            r.selectedAD == old'.selectedAD && r.retryCount == old'.retryCount && r.nextAttempt == old'.nextAttempt)
      && (!w.Rotated? ==> LocalOf(r).attempt == LocalOf(old').attempt)
      && r.lastAttempt == (if w.Rotated? then now else old'.lastAttempt)
  {
    hide Valid, Verdict;
    if w.Rotated? {
      NewAttemptIsFresh(w.draw, w.draw, now, now);
      assert Complete(NewAttempt(w.draw, now, ATTEMPT_VALIDITY).value);
    }
  }

  /** On a record the program wrote, the decision can only conflict because several instances were observed. */
  lemma LocalConflictsUnreachable(key: Key, seen: seq<Instance>, before: Option<Record>, now: Time)
    requires WellformedOption(key, before)
    ensures VerdictOn(key, seen, before, now).kind == Conflict <==> |Counted(seen, key.target, key.account)| > 1
  {
  }
}
