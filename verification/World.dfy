/** The environment of one run. Every call consumes one tick of a script that fixes all answers in advance, so
    quantifying over scripts quantifies over all providers, stores, sleepers and clocks; the run's context is
    cancelled after `horizon` ticks, so quantifying over horizons covers every finite part of a run that would go on
    for ever. */
module World {
  import opened Basics
  import opened State
  import opened Events

  datatype LoadAnswer = NoRecord | Have(record: Record) | Unreadable

  datatype Script = Script(
    usable: nat -> bool,
    outcome: nat -> Outcome,
    elapsed: nat -> nat,
    wakes: nat -> bool,
    draw: nat -> Option<seq<Byte>>,
    jitter: nat -> real,
    probe: nat -> ProbeAnswer,
    launch: nat -> LaunchAnswer,
    look: nat -> LookAnswer,
    get: nat -> GetAnswer,
    message: nat -> string)

  class Env {
    const key: Key
    const script: Script
    const horizon: nat
    var tick: nat
    var clock: Time
    var record: Option<Record>
    ghost const initial: Option<Record>
    /** Locks not obtained, files not read, failed draws of an attempt, and saves not confirmed. */
    ghost var refusals: nat
    /** Events before and since the last `Mark`. */
    ghost var base: seq<Event>
    ghost var log: seq<Event>

    constructor (key: Key, script: Script, horizon: nat, clock: Time, record: Option<Record>)
      ensures this.key == key && this.script == script && this.horizon == horizon
      ensures tick == 0 && this.clock == clock && this.record == record && initial == record && base == [] && log == []
      ensures refusals == 0
      ensures Honest()
    {
      initial, refusals := record, 0;
      this.key, this.script, this.horizon := key, script, horizon;
      tick, this.clock, this.record := 0, clock, record;
      base, log := [], [];
    }

    ghost function Trace(): seq<Event>
      reads this
    {
      base + log
    }

    /** The events tell the truth about the record and about time. */
    ghost predicate Honest()
      reads this
    {
      && Faithful(key, initial, Trace()) && record == Replay(key, initial, Trace())
      && Timed(log) && Latest(log) <= clock
    }

    /** What every call may do to the environment, apart from the record. */
    twostate predicate Advances()
      reads this
    {
      && tick > old(tick) && clock >= old(clock) && base == old(base) && (old(Honest()) ==> Honest())
      && refusals >= old(refusals) && (old(record).Some? ==> record.Some?)
    }

    /** The same for a piece of code that may make no call at all. */
    twostate predicate Stays()
      reads this
    {
      && tick >= old(tick) && clock >= old(clock) && base == old(base) && (old(Honest()) ==> Honest())
      && refusals >= old(refusals) && (old(record).Some? ==> record.Some?)
    }

    /** The same for an engine, which starts a log of its own. */
    twostate predicate Enters()
      reads this
    {
      && tick >= old(tick) && clock >= old(clock) && base == old(Trace()) && (old(Honest()) ==> Honest())
      && refusals >= old(refusals) && (old(record).Some? ==> record.Some?)
      && (log != [] ==> tick > old(tick))
    }

    twostate predicate Does(e: Event)
      reads this
    {
      Advances() && record == old(record) && log == old(log) + [e]
    }

    twostate predicate Silent()
      reads this
    {
      Advances() && record == old(record) && log == old(log)
    }

    /** One save of a client, with its effect on the record. */
    twostate predicate Writes(write: Write, now: Time, out: Outcome)
      reads this
    {
      && Feasible(key, write, old(record), now, out)
      && log == old(log) + [Saved(write, old(record), now, out)]
      && record == After(key, write, old(record), now, out)
    }

    ghost method Mark()
      modifies this`base, this`log
      ensures log == [] && base == old(Trace()) && Trace() == old(Trace())
    {
      base, log := base + log, [];
    }

    method Pass() returns (t: nat)
      modifies this`tick, this`clock
      ensures t == old(tick) && tick == t + 1 && clock >= old(clock)
    {
      t := tick;
      tick, clock := tick + 1, clock + script.elapsed(tick);
    }

    /** `ctx.Err() != nil` */
    predicate Cancelled()
      reads this
    {
      tick > horizon
    }

    ghost method Record(e: Event)
      modifies this`log
      ensures log == old(log) + [e] && Trace() == old(Trace()) + [e]
      ensures Replay(key, initial, Trace()) == Effect(key, Replay(key, initial, old(Trace())), e)
      ensures Faithful(key, initial, old(Trace())) && Reports(key, Replay(key, initial, old(Trace())), e) ==>
        Faithful(key, initial, Trace())
      ensures Timed(log) <==> old(Timed(log)) && OnTime(old(Latest(log)), e)
      ensures Latest(log) == LatestAfter(old(Latest(log)), e)
    {
      TimedSnoc(log, e);
      ReplaySnoc(key, initial, base + log, e);
      log := log + [e];
      assert base + log == old(Trace()) + [e];
    }

    // --- state store -------------------------------------------------------------------------------------------------

    method TryLock() returns (ok: bool)
      modifies this
      ensures Silent() && (ok || refusals > old(refusals))
    {
      var t := Pass();
      ok := script.usable(t);
      if !ok {
        refusals := refusals + 1;
      }
    }

    method Load() returns (answer: LoadAnswer)
      modifies this
      ensures Silent()
      ensures answer.Have? ==> record == Some(answer.record)
      ensures answer.NoRecord? ==> record.None?
      ensures answer.Unreadable? ==> refusals > old(refusals)
    {
      var t := Pass();
      answer := if !script.usable(t) then Unreadable else if record.None? then NoRecord else Have(record.value);
      if answer.Unreadable? {
        refusals := refusals + 1;
      }
    }

    method Now() returns (now: Time)
      modifies this
      ensures Silent() && now == clock
    {
      var _ := Pass();
      now := clock;
    }

    /** `Locked.Save` of the value that client `write` computed from the current record. */
    method Save(value: Record, ghost write: Write, now: Time) returns (ok: bool)
      requires Change(key, write, record, now) == Some(value)
      modifies this
      ensures Advances() && exists out :: Writes(write, now, out) && ok == out.ok
      ensures if ok then record.Some? else refusals > old(refusals)
    {
      hide Change, Accept, Faithful, Replay, Timed, Latest;
      var t := Pass();
      var accepted := Accept(key, value);
      var plan := script.outcome(t);
      var out := Outcome(accepted.Some? && (plan.written || plan.ok), accepted.Some? && plan.ok);
      ghost var before := record;
      if out.written {
        record := accepted;
      }
      ok := out.ok;
      if !ok {
        refusals := refusals + 1;
      }
      Record(Saved(write, before, now, out));
      assert Writes(write, now, out);
    }

    /** The client gave up before `Save`: the lock was taken or the record unreadable. */
    ghost method GiveUp(write: Write)
      modifies this`log
      ensures log == old(log) + [Saved(write, record, clock, Outcome(false, false))]
      ensures old(Honest()) ==> Honest()
    {
      Record(Saved(write, record, clock, Outcome(false, false)));
    }

    // --- randomness, clock, sleeper ----------------------------------------------------------------------------------

    method Random() returns (draw: Option<seq<Byte>>)
      modifies this
      ensures Silent() && ((draw.Some? && |draw.value| >= 32) || refusals > old(refusals))
    {
      var t := Pass();
      draw := script.draw(t);
      if draw.None? || |draw.value| < 32 {
        refusals := refusals + 1;
      }
    }

    method Message() returns (text: string)
      modifies this
      ensures Silent()
    {
      var t := Pass();
      text := script.message(t);
    }

    method Float64() returns (draw: real)
      modifies this
      ensures 0.0 <= draw < 1.0 && Does(Jitter(draw))
    {
      var t := Pass();
      var r := script.jitter(t);
      draw := if 0.0 <= r < 1.0 then r else 0.5;
      Record(Jitter(draw));
    }

    method ReadClock() returns (now: Time)
      modifies this
      ensures now == clock && Does(Clock(now))
    {
      var _ := Pass();
      now := clock;
      Record(Clock(now));
    }

    /** A sleep that lasted may end with the timer although the context was cancelled meanwhile. */
    method Sleep(delay: int) returns (ok: bool)
      modifies this
      ensures Does(Slept(delay, ok, clock))
      ensures ok ==> clock >= old(clock) + delay
    {
      hide Faithful, Replay, Feasible;
      var t := Pass();
      ok := script.wakes(t);
      if ok && delay > 0 {
        clock := clock + delay;
      }
      Record(Slept(delay, ok, clock));
    }

    // --- provider ----------------------------------------------------------------------------------------------------

    method Probe(domain: string) returns (probe: ProbeAnswer, cancelled: bool)
      modifies this
      ensures Does(Probed(domain, probe, cancelled, old(clock)))
      ensures cancelled == Cancelled()
    {
      ghost var at := clock;
      var t := Pass();
      probe, cancelled := script.probe(t), Cancelled();
      Record(Probed(domain, probe, cancelled, at));
    }

    method Launch(request: Request) returns (answer: LaunchAnswer, cancelled: bool)
      modifies this
      ensures Does(Launched(request, answer, cancelled)) && cancelled == Cancelled()
    {
      var t := Pass();
      answer, cancelled := script.launch(t), Cancelled();
      Record(Launched(request, answer, cancelled));
    }

    method Reconcile(request: Request) returns (look: LookAnswer, cancelled: bool)
      modifies this
      ensures Does(Looked(request, look, cancelled)) && cancelled == Cancelled()
    {
      var t := Pass();
      look, cancelled := script.look(t), Cancelled();
      Record(Looked(request, look, cancelled));
    }

    method Get(id: string) returns (get: GetAnswer, cancelled: bool)
      modifies this
      ensures Does(Fetched(id, get, cancelled)) && cancelled == Cancelled()
    {
      var t := Pass();
      get, cancelled := script.get(t), Cancelled();
      Record(Fetched(id, get, cancelled));
    }
  }
}
