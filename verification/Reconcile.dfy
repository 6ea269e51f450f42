/** internal/reconcile/reconcile.go: ownership tags, launch attempts and the reconciliation decision. */
module Reconcile {
  import opened Basics

  const MANAGED_TAG := "ocihood.managed"
  const TARGET_TAG := "ocihood.target-id"
  const ACCOUNT_TAG := "ocihood.account"

  type Tags = map<string, string>

  /** Reading a missing key of a Go map gives the zero string. */
  function Tag(tags: Tags, key: string): string {
    if key in tags then tags[key] else ""
  }

  function OwnershipTags(target: string, account: string): Tags {
    map[MANAGED_TAG := "true", TARGET_TAG := target, ACCOUNT_TAG := Normalize(account)]
  }

  predicate IsOwned(tags: Tags, target: string, account: string) {
    var expected := OwnershipTags(target, account);
    && Tag(tags, MANAGED_TAG) == expected[MANAGED_TAG]
    && Tag(tags, TARGET_TAG) == expected[TARGET_TAG]
    && Tag(tags, ACCOUNT_TAG) == expected[ACCOUNT_TAG]
  }

  /** A launch tags what it creates so that exactly the same target and normalised account owns it. */
  lemma OwnershipIsExact(target: string, account: string, target': string, account': string)
    ensures IsOwned(OwnershipTags(target, account), target', account')
       <==> target == target' && Normalize(account) == Normalize(account')
  {
    assert MANAGED_TAG[8] != TARGET_TAG[8] && MANAGED_TAG[8] != ACCOUNT_TAG[8] && TARGET_TAG[8] != ACCOUNT_TAG[8];
  }

  datatype Attempt = Attempt(id: string, token: string, validUntil: Time)

  const ATTEMPT_VALIDITY: nat := 24 * 3600 * 1_000_000_000

  predicate Complete(attempt: Attempt) {
    !Blank(attempt.id) && !Blank(attempt.token) && attempt.validUntil != 0
  }

  /** `draw` is what reading 32 random bytes gave: nothing when the reader failed. */
  function NewAttempt(draw: Option<seq<Byte>>, now: Time, validity: int): Option<Attempt> {
    if validity <= 0 || draw.None? || |draw.value| < 32 then None
    else
      var bytes := draw.value[..32];
      Some(Attempt(Hex(bytes[..16]), Hex(bytes), now + validity))
  }

  /** Nothing but a failed draw keeps a run from an attempt. */
  lemma AttemptNeedsDraw(draw: Option<seq<Byte>>, now: Time)
    ensures NewAttempt(draw, now, ATTEMPT_VALIDITY).Some? <==> draw.Some? && |draw.value| >= 32
  {
  }

  /** A drawn attempt is complete, is retryable at once, and different randomness gives a different token. */
  lemma NewAttemptIsFresh(draw: Option<seq<Byte>>, draw': Option<seq<Byte>>, now: Time, now': Time)
    requires NewAttempt(draw, now, ATTEMPT_VALIDITY).Some? && NewAttempt(draw', now', ATTEMPT_VALIDITY).Some?
    ensures var a, b := NewAttempt(draw, now, ATTEMPT_VALIDITY).value, NewAttempt(draw', now', ATTEMPT_VALIDITY).value;
      && Complete(a) && a.validUntil == now + ATTEMPT_VALIDITY > now && a.id == a.token[..32]
      && (a.token == b.token <==> draw.value[..32] == draw'.value[..32])
  {
    var bytes, bytes' := draw.value[..32], draw'.value[..32];
    HexNotBlank(bytes);
    HexNotBlank(bytes[..16]);
    HexPrefix(bytes, 16);
    if Hex(bytes) == Hex(bytes') {
      HexInjective(bytes, bytes');
    }
  }

  lemma {:induction false} HexPrefix(bytes: seq<Byte>, n: nat)
    requires n <= |bytes|
    ensures Hex(bytes)[..2 * n] == Hex(bytes[..n])
  {
    if n > 0 {
      HexPrefix(bytes[1..], n - 1);
      assert bytes[..n][1..] == bytes[1..][..n - 1];
      assert Hex(bytes)[2..][..2 * (n - 1)] == Hex(bytes)[..2 * n][2..];
    }
  }

  datatype Lifecycle = Unknown | Active | Terminated

  datatype Instance = Instance(id: string, lifecycle: Lifecycle, tags: Tags)

  /** The durable local state that reconciliation consumes. */
  datatype Local = Local(target: string, instanceID: string, attempt: Option<Attempt>)

  datatype DecisionKind =
    Create | AlreadySatisfied | ResumeReconcile | RetrySameAttempt | NewAttemptSafe | Conflict

  datatype Decision = Decision(kind: DecisionKind, instanceID: string, attempt: Option<Attempt>, reason: string)

  datatype Input = Input(target: string, account: string, local: Option<Local>, instances: seq<Instance>, now: Time)

  predicate CreateSafe(kind: DecisionKind) {
    kind == Create || kind == NewAttemptSafe || kind == RetrySameAttempt
  }

  /** An instance that carries our tags and is not known to be gone. */
  predicate Counts(instance: Instance, target: string, account: string) {
    IsOwned(instance.tags, target, account) && instance.lifecycle != Terminated
  }

  function Counted(instances: seq<Instance>, target: string, account: string): seq<Instance> {
    if instances == [] then []
    else
      Counted(instances[..|instances| - 1], target, account)
      + (if Counts(instances[|instances| - 1], target, account) then [instances[|instances| - 1]] else [])
  }

  function Decided(kind: DecisionKind, instanceID: string, reason: string): Decision {
    Decision(kind, instanceID, None, reason)
  }

  function ConflictReason(n: nat): string {
    "found " + Decimal(n) + " active or unknown managed instances for target"
  }

  const OTHER_TARGET := "local state belongs to a different target"
  const UNKNOWN_LIFECYCLE := "managed instance lifecycle is unknown"
  const DIFFERENT_INSTANCE := "provider instance differs from local state"
  const SATISFIED := "one active managed instance satisfies target"
  const NOTHING_FOUND := "no local state or active managed instance"
  const INCOMPLETE_ATTEMPT := "local state contains an incomplete launch attempt"
  const STILL_RETRYABLE := "in-flight attempt remains retryable"
  const EXPIRED := "previous attempt expired and reconciliation found no active instance"
  const ABSENT := "local instance is absent and reconciliation found no active instance"

  /** What to do when no counted instance was observed. */
  function WithoutInstance(local: Option<Local>, now: Time): Decision {
    if local.None? then Decided(Create, "", NOTHING_FOUND)
    else if local.value.attempt.None? then
      Decided(NewAttemptSafe, "", ABSENT)
    else if !Complete(local.value.attempt.value) then
      Decided(Conflict, "", INCOMPLETE_ATTEMPT)
    else if now < local.value.attempt.value.validUntil then
      Decision(RetrySameAttempt, "", local.value.attempt, STILL_RETRYABLE)
    else Decided(NewAttemptSafe, "", EXPIRED)
  }

  /** What to do when exactly one counted instance was observed. */
  function WithInstance(local: Option<Local>, found: Instance): Decision {
    if found.lifecycle == Unknown then Decided(ResumeReconcile, found.id, UNKNOWN_LIFECYCLE)
    else if local.Some? && local.value.instanceID != "" && local.value.instanceID != found.id then
      Decided(ResumeReconcile, found.id, DIFFERENT_INSTANCE)
    else Decided(AlreadySatisfied, found.id, SATISFIED)
  }

  /** The decision as a function of the counted instances alone. */
  function Verdict(input: Input): Decision {
    var found := Counted(input.instances, input.target, input.account);
    if input.local.Some? && input.local.value.target != input.target then
      Decided(Conflict, "", OTHER_TARGET)
    else if |found| > 1 then Decided(Conflict, "", ConflictReason(|found|))
    else if |found| == 1 then WithInstance(input.local, found[0])
    else WithoutInstance(input.local, input.now)
  }

  /** `Decide`: splits the observed instances into two lists, then cascades over their sizes. */
  method Decide(input: Input) returns (d: Decision)
    ensures d == Verdict(input)
  {
    if input.local.Some? && input.local.value.target != input.target {
      return Decided(Conflict, "", OTHER_TARGET);
    }
    var active, unknown := Split(input.instances, input.target, input.account);
    SameSize(active, unknown, Counted(input.instances, input.target, input.account));
    d := Cascade(input, active, unknown);
  }

  /** The loop of `Decide`. */
  method Split(instances: seq<Instance>, target: string, account: string)
    returns (active: seq<Instance>, unknown: seq<Instance>)
    ensures forall x | x in active :: x.lifecycle == Active
    ensures forall x | x in unknown :: x.lifecycle == Unknown
    ensures multiset(active) + multiset(unknown) == multiset(Counted(instances, target, account))
  {
    active, unknown := [], [];
    hide IsOwned, Counted;
    CountedNone(target, account);
    for i := 0 to |instances|
      invariant multiset(active) + multiset(unknown) == multiset(Counted(instances[..i], target, account))
      invariant forall x | x in active :: x.lifecycle == Active
      invariant forall x | x in unknown :: x.lifecycle == Unknown
    {
      var instance := instances[i];
      CountedSnoc(instances, i, target, account);
      if IsOwned(instance.tags, target, account) {
        match instance.lifecycle
        case Active => active := active + [instance];
        case Unknown => unknown := unknown + [instance];
        case Terminated =>
      }
    }
    assert instances[..|instances|] == instances;
  }

  /** The tail of `Decide`, once the lists are built. */
  method Cascade(input: Input, active: seq<Instance>, unknown: seq<Instance>) returns (d: Decision)
    requires input.local.Some? ==> input.local.value.target == input.target
    requires forall x | x in active :: x.lifecycle == Active
    requires forall x | x in unknown :: x.lifecycle == Unknown
    requires var found := Counted(input.instances, input.target, input.account);
      && |found| == |active| + |unknown|
      && (|found| == 1 ==> found == active || found == unknown)
    ensures d == Verdict(input)
  {
    if |active| + |unknown| > 1 {
      return Decided(Conflict, "", ConflictReason(|active| + |unknown|));
    }
    if |unknown| == 1 {
      return Decided(ResumeReconcile, unknown[0].id, UNKNOWN_LIFECYCLE);
    }
    if |active| == 1 {
      if input.local.Some? && input.local.value.instanceID != "" && input.local.value.instanceID != active[0].id {
        return Decided(ResumeReconcile, active[0].id, DIFFERENT_INSTANCE);
      }
      return Decided(AlreadySatisfied, active[0].id, SATISFIED);
    }
    if input.local.None? {
      return Decided(Create, "", NOTHING_FOUND);
    }
    if input.local.value.attempt.Some? {
      var attempt := input.local.value.attempt.value;
      if Blank(attempt.id) || Blank(attempt.token) || attempt.validUntil == 0 {
        return Decided(Conflict, "", INCOMPLETE_ATTEMPT);
      }
      if input.now < attempt.validUntil {
        return Decision(RetrySameAttempt, "", input.local.value.attempt, STILL_RETRYABLE);
      }
      return Decided(NewAttemptSafe, "", EXPIRED);
    }
    return Decided(NewAttemptSafe, "", ABSENT);
  }

  lemma CountedNone(target: string, account: string)
    ensures Counted([], target, account) == []
  {
  }

  lemma CountedSnoc(s: seq<Instance>, i: nat, target: string, account: string)
    requires i < |s|
    ensures Counted(s[..i + 1], target, account)
         == Counted(s[..i], target, account) + (if Counts(s[i], target, account) then [s[i]] else [])
  {
    assert s[..i + 1][..i] == s[..i];
  }

  lemma SameSize(a: seq<Instance>, b: seq<Instance>, c: seq<Instance>)
    requires multiset(a) + multiset(b) == multiset(c)
    ensures |a| + |b| == |c|
    ensures |c| == 1 && |a| == 1 ==> a == c
    ensures |c| == 1 && |b| == 1 ==> b == c
  {
    assert |multiset(a) + multiset(b)| == |a| + |b| && |multiset(c)| == |c|;
    if |c| == 1 {
      assert c[0] in multiset(a) + multiset(b);
    }
  }

  lemma {:induction false} CountedMultiplicity(s: seq<Instance>, target: string, account: string, x: Instance)
    ensures multiset(Counted(s, target, account))[x] == if Counts(x, target, account) then multiset(s)[x] else 0
  {
    if s != [] {
      CountedMultiplicity(s[..|s| - 1], target, account, x);
      assert s == s[..|s| - 1] + [s[|s| - 1]];
    }
  }

  lemma CountedMember(s: seq<Instance>, target: string, account: string, x: Instance)
    ensures x in Counted(s, target, account) <==> x in s && Counts(x, target, account)
  {
    CountedMultiplicity(s, target, account, x);
    assert x in s <==> x in multiset(s);
    assert x in Counted(s, target, account) <==> x in multiset(Counted(s, target, account));
  }

  /** Order, unowned instances and terminated instances never influence the decision: two inputs that agree on how
      often each counted instance occurs are decided alike. */
  lemma DecisionIgnoresOrderAndNoise(a: Input, b: Input)
    requires a.(instances := []) == b.(instances := [])
    requires forall x | Counts(x, a.target, a.account) :: multiset(a.instances)[x] == multiset(b.instances)[x]
    ensures Verdict(a) == Verdict(b)
  {
    var s, t := Counted(a.instances, a.target, a.account), Counted(b.instances, a.target, a.account);
    forall x: Instance
      ensures multiset(s)[x] == multiset(t)[x]
    {
      CountedMultiplicity(a.instances, a.target, a.account, x);
      CountedMultiplicity(b.instances, a.target, a.account, x);
    }
    assert multiset(s) == multiset(t);
    assert |multiset(s)| == |s| && |multiset(t)| == |t|;
    if |s| == 1 {
      assert s[0] in multiset(t);
    }
  }

  /** The run may create exactly when nothing counted was observed and the local state is absent, or is ours with
      either no attempt or a complete one. */
  lemma CreateSafeExactly(input: Input)
    ensures CreateSafe(Verdict(input).kind) <==>
      && (forall x | x in input.instances :: !Counts(x, input.target, input.account))
      && (input.local.Some? ==>
            && input.local.value.target == input.target
            && (input.local.value.attempt.Some? ==> Complete(input.local.value.attempt.value)))
  {
    var found := Counted(input.instances, input.target, input.account);
    forall x: Instance
      ensures x in found <==> x in input.instances && Counts(x, input.target, input.account)
    {
      CountedMember(input.instances, input.target, input.account, x);
    }
    if found != [] {
      assert found[0] in found;
    }
  }

  /** No instance of ours was observed. */
  predicate Nothing(input: Input) {
    forall x | x in input.instances :: !Counts(x, input.target, input.account)
  }

  /** `x` is the only instance of ours that was observed, and it was observed once. */
  predicate Only(input: Input, x: Instance) {
    && Counts(x, input.target, input.account) && multiset(input.instances)[x] == 1
    && forall y | y in input.instances && Counts(y, input.target, input.account) :: y == x
  }

  /** The local state, if any, is that of this target. */
  predicate Ours(input: Input) {
    input.local.Some? ==> input.local.value.target == input.target
  }

  /** The local state names another instance than `x`. */
  predicate Differs(local: Option<Local>, x: Instance) {
    local.Some? && local.value.instanceID != "" && local.value.instanceID != x.id
  }

  /** No decision would be safe: the local state is not ours, several instances were observed, or none while an attempt
      is recorded that is not complete. */
  ghost predicate Contested(input: Input) {
    || !Ours(input)
    || (!Nothing(input) && forall x :: !Only(input, x))
    || (Nothing(input) && input.local.Some? && input.local.value.attempt.Some?
        && !Complete(input.local.value.attempt.value))
  }

  lemma OnlyIsCounted(input: Input, x: Instance)
    ensures Only(input, x) <==> Counted(input.instances, input.target, input.account) == [x]
    ensures Nothing(input) <==> Counted(input.instances, input.target, input.account) == []
  {
    var found := Counted(input.instances, input.target, input.account);
    forall y: Instance
      ensures y in found <==> y in input.instances && Counts(y, input.target, input.account)
    {
      CountedMember(input.instances, input.target, input.account, y);
    }
    CountedMultiplicity(input.instances, input.target, input.account, x);
    if found != [] {
      assert found[0] in found;
      var rest := found[1..];
      assert found == [found[0]] + rest;
      assert multiset(found) == multiset{found[0]} + multiset(rest);
      if rest != [] {
        assert rest[0] in rest && rest[0] in found;
      }
    }
  }

  /** When each decision is taken, in terms of what was observed and what the local state says. */
  lemma DecisionExactly(input: Input)
    ensures var d := Verdict(input);
      && (d.kind == AlreadySatisfied <==>
            Ours(input) && exists x :: Only(input, x) && x.lifecycle == Active && !Differs(input.local, x))
      && (d.kind == ResumeReconcile <==>
            Ours(input) && exists x :: Only(input, x) && (x.lifecycle == Unknown || Differs(input.local, x)))
      && (d.kind == Create <==> Nothing(input) && input.local.None?)
      && (d.kind == RetrySameAttempt <==>
            && Ours(input) && Nothing(input) && input.local.Some? && input.local.value.attempt.Some?
            && Complete(input.local.value.attempt.value) && input.now < input.local.value.attempt.value.validUntil)
      && (d.kind == NewAttemptSafe <==>
            && Ours(input) && Nothing(input) && input.local.Some?
            && (input.local.value.attempt.Some? ==>
                  && Complete(input.local.value.attempt.value)
                  && input.now >= input.local.value.attempt.value.validUntil))
      && (d.kind == Conflict <==> Contested(input))
    ensures forall x | Only(input, x) :: !Nothing(input) && (Ours(input) ==> Verdict(input).instanceID == x.id)
    ensures Nothing(input) || Verdict(input).kind == Conflict ==> Verdict(input).instanceID == ""
    ensures Verdict(input).attempt
         == if Verdict(input).kind == RetrySameAttempt then input.local.value.attempt else None
  {
    forall x: Instance
      ensures Only(input, x) <==> Counted(input.instances, input.target, input.account) == [x]
      ensures Nothing(input) <==> Counted(input.instances, input.target, input.account) == []
    {
      OnlyIsCounted(input, x);
    }
    hide Only, Nothing, Counted, Complete;
    var found := Counted(input.instances, input.target, input.account);
    if |found| == 1 {
      assert found == [found[0]] && Only(input, found[0]);
    }
  }

  /** A decision names an instance only if it is the one counted instance of the observation. */
  lemma NamedInstanceIsUnique(input: Input, x: Instance)
    requires Verdict(input).instanceID != ""
    requires x in input.instances && Counts(x, input.target, input.account)
    ensures x.id == Verdict(input).instanceID && multiset(input.instances)[x] == 1
  {
    CountedMember(input.instances, input.target, input.account, x);
    CountedMultiplicity(input.instances, input.target, input.account, x);
    var found := Counted(input.instances, input.target, input.account);
    assert |found| == 1 && found[0] == x;
    assert found == [x];
  }
}
