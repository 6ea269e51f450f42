/** What one run does that anybody else can observe: its calls to the provider, the sleeper, the clock and the store,
    with their answers. */
module Events {
  import opened Basics
  import opened Reconcile
  import opened State

  datatype LaunchKind =
    Accepted | OutOfCapacity | Transient | Ambiguous | Fatal | LimitExceeded | Canceled | Unset | Other(name: string)

  /** The part of `launch.Request` that identity depends on. */
  datatype Request = Request(key: Key, token: string)

  /** `timedOut` is the per-request deadline having passed. */
  datatype LaunchAnswer = LaunchAnswer(kind: LaunchKind, id: string, retryAfter: int, timedOut: bool)

  /** `Failed` carries the kind that `errors.As` finds in the error, if any. */
  datatype LookAnswer = Found(id: string) | Absent | LookFailed(kind: Option<LaunchKind>)

  datatype GetAnswer = Got(vm: Vm) | GetFailed(kind: Option<LaunchKind>)

  /** `failed` is a non-nil error beside the kind. */
  datatype ProbeAnswer = ProbeAnswer(kind: ProbeKind, retryAfter: int, failed: bool, timedOut: bool)

  /** Effective configuration and discovery result of one run. */
  datatype Setup = Setup(key: Key, once: bool, domains: seq<string>, complete: bool,
                         timeout: int, retryMin: int, retryMax: int, publicIP: bool)

  datatype Event =
    | Discovered(setup: Setup, seen: seq<Instance>)
    | Guarded(ok: bool)
    | Saved(write: Write, before: Option<Record>, now: Time, out: Outcome)
    | Resumed(record: Record)
    | Clock(now: Time)
    | Jitter(draw: real)
    | Slept(delay: int, ok: bool, woke: Time)
    | Probed(domain: string, probe: ProbeAnswer, cancelled: bool, at: Time)
    | Placed(existing: string)
    | Launched(request: Request, answer: LaunchAnswer, cancelled: bool)
    | Looked(request: Request, look: LookAnswer, cancelled: bool)
    | Fetched(id: string, get: GetAnswer, cancelled: bool)
    | Exited(ok: bool, instanceID: string)

  // --- the record behind a sequence of events -----------------------------------------------------------------------

  /** One event's effect on the durable record. */
  function Effect(key: Key, r: Option<Record>, e: Event): Option<Record> {
    if e.Saved? then After(key, e.write, r, e.now, e.out) else r
  }

  function Replay(key: Key, initial: Option<Record>, es: seq<Event>): Option<Record> {
    if es == [] then initial else Effect(key, Replay(key, initial, es[..|es| - 1]), es[|es| - 1])
  }

  /** The event reports the record as it is. */
  predicate Reports(key: Key, r: Option<Record>, e: Event) {
    match e
    case Saved(write, before, now, out) => before == r && Feasible(key, write, before, now, out)
    case Resumed(record) => r == Some(record)
    case _ => true
  }

  predicate Faithful(key: Key, initial: Option<Record>, es: seq<Event>) {
    es == [] ||
    (Faithful(key, initial, es[..|es| - 1]) && Reports(key, Replay(key, initial, es[..|es| - 1]), es[|es| - 1]))
  }

  lemma ReplaySnoc(key: Key, initial: Option<Record>, es: seq<Event>, e: Event)
    ensures Replay(key, initial, es + [e]) == Effect(key, Replay(key, initial, es), e)
    ensures Faithful(key, initial, es + [e]) <==>
      Faithful(key, initial, es) && Reports(key, Replay(key, initial, es), e)
  {
    assert (es + [e])[..|es + [e]| - 1] == es;
  }

  lemma {:induction false} FaithfulIsFeasible(key: Key, initial: Option<Record>, es: seq<Event>, e: Event)
    requires Faithful(key, initial, es) && e in es && e.Saved?
    ensures Feasible(key, e.write, e.before, e.now, e.out)
  {
    if e != es[|es| - 1] {
      FaithfulIsFeasible(key, initial, es[..|es| - 1], e);
    }
  }

  // --- time --------------------------------------------------------------------------------------------------------

  function LatestAfter(latest: Time, e: Event): Time {
    match e
    case Clock(now) => now
    case Slept(_, _, woke) => woke
    case Probed(_, _, _, at) => at
    case _ => latest
  }

  /** The latest time mentioned. */
  function Latest(es: seq<Event>): Time {
    if es == [] then 0 else LatestAfter(Latest(es[..|es| - 1]), es[|es| - 1])
  }

  predicate OnTime(latest: Time, e: Event) {
    match e
    case Clock(now) => now >= latest
    case Slept(delay, ok, woke) => woke >= latest && (ok ==> woke >= latest + delay)
    case Probed(_, _, _, at) => at >= latest
    case _ => true
  }

  /** Time never runs backwards, and a completed sleep lasts. */
  predicate Timed(es: seq<Event>) {
    es == [] || (Timed(es[..|es| - 1]) && OnTime(Latest(es[..|es| - 1]), es[|es| - 1]))
  }

  lemma TimedSnoc(es: seq<Event>, e: Event)
    ensures Timed(es + [e]) <==> Timed(es) && OnTime(Latest(es), e)
    ensures Latest(es + [e]) == LatestAfter(Latest(es), e)
  {
    assert (es + [e])[..|es + [e]| - 1] == es;
  }

  // --- the doubling delay shared by both retry engines -------------------------------------------------------------

  /** `minimum` doubled `retry` times, capped. */
  function Delay(minimum: int, maximum: int, retry: nat): int {
    Min(maximum, minimum * Pow2(retry))
  }

  /** The least number of doublings after which the cap is reached. */
  function Doublings(minimum: int, maximum: int): (k: nat)
    requires minimum > 0
    decreases maximum - minimum
  {
    if minimum >= maximum then 0 else 1 + Doublings(2 * minimum, maximum)
  }

  lemma {:induction false} DoublingsIsLeast(minimum: int, maximum: int, retry: nat)
    requires minimum > 0
    ensures minimum * Pow2(retry) >= maximum <==> retry >= Doublings(minimum, maximum)
    decreases maximum - minimum
  {
    if minimum >= maximum {
      assert minimum * Pow2(retry) >= minimum * 1;
    } else if retry > 0 {
      DoublingsIsLeast(2 * minimum, maximum, retry - 1);
      assert minimum * Pow2(retry) == 2 * minimum * Pow2(retry - 1);
    }
  }

  /** The delay never exceeds the cap, never decreases as retries go up, and meets the cap from `Doublings` on. */
  lemma DelayShape(minimum: int, maximum: int, a: nat, b: nat)
    requires 0 < minimum <= maximum && a <= b
    ensures minimum <= Delay(minimum, maximum, a) <= Delay(minimum, maximum, b) <= maximum
    ensures Delay(minimum, maximum, a) == maximum <==> a >= Doublings(minimum, maximum)
  {
    Pow2Monotone(a, b);
    assert minimum * Pow2(b) - minimum * Pow2(a) == minimum * (Pow2(b) - Pow2(a)) >= 0;
    assert minimum * Pow2(a) - minimum == minimum * (Pow2(a) - 1) >= 0;
    DoublingsIsLeast(minimum, maximum, a);
  }

  /** Each retry doubles the delay, up to the cap. */
  lemma DelayDoubles(minimum: int, maximum: int, retry: nat)
    requires 0 < minimum <= maximum
    ensures Delay(minimum, maximum, 0) == minimum
    ensures Delay(minimum, maximum, retry + 1) == Min(maximum, 2 * Delay(minimum, maximum, retry))
  {
    assert minimum * Pow2(retry + 1) == 2 * (minimum * Pow2(retry));
  }

  /** `time.Duration`: machine arithmetic in the two loops below never overflows. */
  newtype Duration = x: int | -0x8000_0000_0000_0000 <= x < 0x8000_0000_0000_0000

  const MAX_DURATION := 0x7fff_ffff_ffff_ffff

  /** `launch.backoff` */
  method LaunchBackoff(minimum: Duration, maximum: Duration, retry: nat) returns (d: Duration)
    requires 0 < minimum <= maximum
    ensures d as int == Delay(minimum as int, maximum as int, retry)
  {
    d := minimum;
    var i := 0;
    while i < retry && d < maximum
      invariant 0 <= i <= retry && minimum <= d
      invariant d as int == minimum as int * Pow2(i)
    {
      if d > maximum / 2 {
        BeyondCap(minimum as int, maximum as int, i, retry);
        return maximum;
      }
      assert 2 * (d as int) <= maximum as int;
      d := d * 2;
      i := i + 1;
    }
    if i < retry {
      Pow2Monotone(i, retry);
      assert minimum as int * Pow2(retry) >= minimum as int * Pow2(i);
    }
    if d > maximum {
      d := maximum;
    }
  }

  lemma BeyondCap(minimum: int, maximum: int, i: nat, retry: nat)
    requires 0 < minimum && i < retry && 2 * (minimum * Pow2(i)) >= maximum
    ensures minimum * Pow2(retry) >= maximum
  {
    Pow2Monotone(i + 1, retry);
    ScaleUp(minimum, Pow2(i + 1), Pow2(retry));
    calc {
      minimum * Pow2(i + 1);
      minimum * (2 * Pow2(i));
      2 * (minimum * Pow2(i));
    }
  }

  /** The watcher's base delay is one doubling behind: the first retry waits the initial interval. */
  function WatchBase(initial: int, maximum: int, retry: nat): int {
    Delay(initial, maximum, if retry == 0 then 0 else retry - 1)
  }

  function Times(x: real, y: real): real {
    x * y
  }

  /** `time.Duration(float64(base) * factor)`; exact reals stand for the floating-point product. */
  function Scaled(base: int, factor: real): int {
    Times(base as real, factor).Floor
  }

  function Factor(jitter: real, draw: real): real {
    1.0 - jitter + 2.0 * Times(jitter, draw)
  }

  function Jittered(base: int, maximum: int, jitter: real, draw: real): int {
    Min(maximum, Scaled(base, Factor(jitter, draw)))
  }

  /** The doubling loop of `Watcher.backoff`. */
  method WatchDoubling(initial: Duration, maximum: Duration, retry: nat) returns (delay: Duration)
    requires 0 < initial <= maximum
    ensures delay as int == Min(maximum as int, initial as int * Pow2(if retry == 0 then 0 else retry - 1))
  {
    delay := initial;
    var i := 1;
    while i < retry && delay < maximum
      invariant 1 <= i && (i <= retry || i == 1)
      invariant initial <= delay <= maximum
      invariant delay as int == Delay(initial as int, maximum as int, i - 1)
    {
      if delay > maximum / 2 {
        delay := maximum;
      } else {
        delay := delay * 2;
      }
      i := i + 1;
    }
    DelayShape(initial as int, maximum as int, i - 1, if retry <= i then i - 1 else retry - 1);
  }

  /** 2^63 */
  const RANGE: real := 9223372036854775808.0

  /** No jitter takes a delay out of the range of machine durations, so that converting it back is well defined. */
  predicate Convertible(maximum: int, jitter: real) {
    maximum <= MAX_DURATION && Times(maximum as real, 1.0 + jitter) <= RANGE
  }

  lemma TimesMonotone(b: real, x: real, y: real)
    requires b >= 0.0 && x <= y
    ensures Times(b, x) <= Times(b, y) && Times(x, b) <= Times(y, b)
  {
  }

  lemma TimesStrict(b: real, x: real, y: real)
    requires b > 0.0 && x < y
    ensures Times(b, x) < Times(b, y)
  {
  }

  lemma TimesUnit(b: real)
    ensures Times(b, 1.0) == b && Times(b, 0.0) == 0.0 && Times(0.0, b) == 0.0
  {
  }

  lemma FloorMonotone(x: real, y: real)
    requires x <= y
    ensures x.Floor <= y.Floor
  {
  }

  lemma FloorBelow(x: real)
    requires x < RANGE
    ensures x.Floor <= MAX_DURATION
  {
  }

  lemma ScaledMonotone(base: int, x: real, y: real)
    requires base >= 0 && x <= y
    ensures Scaled(base, x) <= Scaled(base, y)
  {
    hide Times;
    TimesMonotone(base as real, x, y);
    FloorMonotone(Times(base as real, x), Times(base as real, y));
  }

  lemma ScaledByUnit(base: int)
    ensures Scaled(base, 1.0) == base && Scaled(base, 0.0) == 0
  {
    hide Times;
    TimesUnit(base as real);
  }

  lemma FactorBand(jitter: real, draw: real)
    requires 0.0 <= jitter <= 1.0 && 0.0 <= draw < 1.0
    ensures 1.0 - jitter <= Factor(jitter, draw) <= 1.0 + jitter
    ensures if jitter == 0.0 then Factor(jitter, draw) == 1.0 else Factor(jitter, draw) < 1.0 + jitter
  {
    hide Times;
    TimesUnit(jitter);
    TimesUnit(draw);
    TimesMonotone(jitter, 0.0, draw);
    TimesMonotone(jitter, draw, 1.0);
    if jitter > 0.0 {
      TimesStrict(jitter, draw, 1.0);
    }
  }

  /** The draw decides alone: it moves the factor through the whole band, from the lower end up. */
  lemma FactorCovers(jitter: real, factor: real) returns (draw: real)
    requires 0.0 < jitter <= 1.0 && 1.0 - jitter <= factor < 1.0 + jitter
    ensures 0.0 <= draw < 1.0 && Factor(jitter, draw) == factor
    ensures forall lower | lower < draw :: Factor(jitter, lower) < factor
  {
    draw := (factor - 1.0 + jitter) / (2.0 * jitter);
    assert 2.0 * Times(jitter, draw) == factor - 1.0 + jitter;
    forall lower | lower < draw
      ensures Factor(jitter, lower) < factor
    {
      TimesStrict(jitter, lower, draw);
    }
  }

  lemma ScaledFits(base: int, maximum: int, jitter: real, draw: real)
    requires 0 < base <= maximum && Convertible(maximum, jitter)
    requires 0.0 <= jitter <= 1.0 && 0.0 <= draw < 1.0
    ensures 0 <= Scaled(base, Factor(jitter, draw)) <= MAX_DURATION
  {
    hide Times, Factor;
    var factor := Factor(jitter, draw);
    FactorBand(jitter, draw);
    ScaledMonotone(base, 0.0, factor);
    ScaledByUnit(base);
    if jitter > 0.0 {
      TimesStrict(base as real, factor, 1.0 + jitter);
      TimesMonotone(1.0 + jitter, base as real, maximum as real);
      FloorBelow(Times(base as real, factor));
    }
  }

  /** `Watcher.backoff`: the base delay, then jitter, then the cap, on machine durations. */
  method WatchBackoff(initial: Duration, maximum: Duration, jitter: real, draw: real, retry: nat) returns (d: Duration)
    requires 0 < initial <= maximum && 0.0 <= jitter <= 1.0 && 0.0 <= draw < 1.0
    requires Convertible(maximum as int, jitter)
    ensures d as int == Jittered(WatchBase(initial as int, maximum as int, retry), maximum as int, jitter, draw)
  {
    var delay := WatchDoubling(initial, maximum, retry);
    BaseInRange(initial as int, maximum as int, retry);
    hide Scaled, WatchBase, Convertible, Factor;
    ScaledFits(delay as int, maximum as int, jitter, draw);
    d := Scaled(delay as int, Factor(jitter, draw)) as Duration;
    if d > maximum {
      d := maximum;
    }
  }

  lemma BaseInRange(initial: int, maximum: int, retry: nat)
    requires 0 < initial <= maximum
    ensures initial <= WatchBase(initial, maximum, retry) <= maximum
  {
    var r := if retry == 0 then 0 else retry - 1;
    DelayShape(initial, maximum, r, r);
  }

  /** For every draw in `[0, 1)` the jittered delay stays within the band around its base, and below the cap. */
  lemma JitterBand(base: int, maximum: int, jitter: real, draw: real)
    requires 0 <= base <= maximum && 0.0 <= jitter <= 1.0 && 0.0 <= draw < 1.0
    ensures Scaled(base, 1.0 - jitter) <= Jittered(base, maximum, jitter, draw) <= maximum
    ensures Jittered(base, maximum, jitter, draw) <= Scaled(base, 1.0 + jitter)
    ensures jitter == 0.0 ==> Jittered(base, maximum, jitter, draw) == base
  {
    hide Scaled, Factor;
    var low, factor, high := 1.0 - jitter, Factor(jitter, draw), 1.0 + jitter;
    FactorBand(jitter, draw);
    ScaledMonotone(base, low, factor);
    ScaledMonotone(base, factor, high);
    ScaledMonotone(base, low, 1.0);
    ScaledMonotone(base, 1.0, high);
    ScaledByUnit(base);
  }
}
