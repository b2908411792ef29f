/** The circuit breaker of an external resource, and what any sequence of calls to it shows. */
module CircuitBreaker {
  import opened Wrappers

  datatype Config = Config(failureThreshold: int, cooldownMs: int, maxHalfOpenTrials: int)

  datatype Phase = Closed | Open | HalfOpen

  datatype Circuit = Circuit(phase: Phase, failures: nat, openedAt: Option<int>, halfOpenTrials: nat)

  function Initial(): Circuit {
    Circuit(Closed, 0, None, 0)
  }

  /** Whether a call may pass at time `now`, and the state after asking. */
  function Allowed(cfg: Config, c: Circuit, now: int): (Circuit, bool) {
    match c.phase
    case Closed => (c, true)
    case Open =>
      var elapsed := now - (if c.openedAt.Some? then c.openedAt.value else now);
      if elapsed >= cfg.cooldownMs then (c.(phase := HalfOpen, halfOpenTrials := 0), true) else (c, false)
    case HalfOpen => (c, c.halfOpenTrials < cfg.maxHalfOpenTrials)
  }

  function Succeeded(c: Circuit): Circuit {
    match c.phase
    case HalfOpen => Circuit(Closed, 0, None, 0)
    case Closed => c.(failures := 0)
    case Open => c
  }

  function Failed(cfg: Config, c: Circuit, now: int): Circuit {
    if c.phase.HalfOpen? then c.(phase := Open, openedAt := Some(now), halfOpenTrials := 0)
    else if c.failures + 1 >= cfg.failureThreshold then
      c.(phase := Open, failures := c.failures + 1, openedAt := Some(now))
    else c.(failures := c.failures + 1)
  }

  class CircuitBreaker {
    const config: Config
    var state: Circuit

    constructor (config: Config)
      ensures this.config == config && state == Initial()
    {
      this.config := config;
      state := Initial();
    }

    method Allow(now: int) returns (pass: bool)
      modifies this
      ensures (state, pass) == Allowed(config, old(state), now)
    {
      if state.phase == Closed { return true; }
      if state.phase == Open {
        var elapsed := now - (if state.openedAt.Some? then state.openedAt.value else now);
        if elapsed >= config.cooldownMs {
          state := state.(phase := HalfOpen, halfOpenTrials := 0);
          return true;
        }
        return false;
      }
      return state.halfOpenTrials < config.maxHalfOpenTrials;
    }

    method RecordSuccess()
      modifies this
      ensures state == Succeeded(old(state))
    {
      if state.phase == HalfOpen {
        state := state.(phase := Closed, failures := 0, openedAt := None, halfOpenTrials := 0);
      } else if state.phase == Closed {
        state := state.(failures := 0);
      }
    }

    method RecordFailure(now: int)
      modifies this
      ensures state == Failed(config, old(state), now)
    {
      if state.phase == HalfOpen {
        state := state.(phase := Open, openedAt := Some(now), halfOpenTrials := 0);
        return;
      }
      var failures := state.failures + 1;
      if failures >= config.failureThreshold {
        state := state.(phase := Open, failures := failures, openedAt := Some(now));
      } else {
        state := state.(failures := failures);
      }
    }
  }

  /* ---------- traces ---------- */

  /** A call, with the time at which it is made. */
  datatype Call = Ask(now: int) | Success(now: int) | Failure(now: int)

  function StepCall(cfg: Config, c: Circuit, call: Call): Circuit {
    match call
    case Ask(now) => Allowed(cfg, c, now).0
    case Success(_) => Succeeded(c)
    case Failure(now) => Failed(cfg, c, now)
  }

  function After(cfg: Config, calls: seq<Call>): Circuit {
    if calls == [] then Initial() else StepCall(cfg, After(cfg, calls[..|calls| - 1]), calls[|calls| - 1])
  }

  /** The clock never goes back. */
  predicate Monotone(calls: seq<Call>) {
    forall i, j | 0 <= i < j < |calls| :: calls[i].now <= calls[j].now
  }

  /** Failures recorded since the last success, or since the start; asking does not count. */
  function Streak(calls: seq<Call>): nat {
    if calls == [] then 0
    else
      match calls[|calls| - 1]
      case Success(_) => 0
      case Failure(_) => Streak(calls[..|calls| - 1]) + 1
      case Ask(_) => Streak(calls[..|calls| - 1])
  }

  predicate Consistent(cfg: Config, c: Circuit) {
    && (c.phase.Closed? <==> c.failures < cfg.failureThreshold)
    && (c.phase.Closed? <==> c.openedAt.None?)
    && c.halfOpenTrials == 0
  }

  /**
   Closed means: fewer failures than the threshold and no opening time; and while closed the failures counted are those
   since the last success. The count of half-open trials never leaves zero.
   */
  lemma {:induction false} BreakerConsistent(cfg: Config, calls: seq<Call>)
    requires cfg.failureThreshold >= 1
    ensures Consistent(cfg, After(cfg, calls))
    ensures After(cfg, calls).phase.Closed? ==> After(cfg, calls).failures == Streak(calls)
  {
    if calls != [] { BreakerConsistent(cfg, calls[..|calls| - 1]); }
  }

  /**
   A closed breaker opens exactly on the failure that completes a streak of threshold length, and on no other call.
   */
  lemma {:induction false} TripsOnThreshold(cfg: Config, calls: seq<Call>, call: Call)
    requires cfg.failureThreshold >= 1 && After(cfg, calls).phase.Closed?
    ensures !After(cfg, calls + [call]).phase.Closed? <==> call.Failure? && Streak(calls) + 1 == cfg.failureThreshold
    ensures !After(cfg, calls + [call]).phase.Closed? ==>
              After(cfg, calls + [call]).phase.Open? && After(cfg, calls + [call]).openedAt == Some(call.now)
  {
    BreakerConsistent(cfg, calls);
    assert (calls + [call])[..|calls|] == calls;
  }

  /** Only a success recorded while half open closes the breaker again. */
  lemma {:induction false} ClosesOnlyOnSuccess(cfg: Config, calls: seq<Call>, call: Call)
    requires cfg.failureThreshold >= 1 && !After(cfg, calls).phase.Closed?
    ensures After(cfg, calls + [call]).phase.Closed? <==> call.Success? && After(cfg, calls).phase.HalfOpen?
  {
    assert (calls + [call])[..|calls|] == calls;
  }

  lemma {:induction false} HalfOpenAfterCooldown(cfg: Config, calls: seq<Call>)
    requires cfg.failureThreshold >= 1 && Monotone(calls)
    ensures var c := After(cfg, calls);
            c.openedAt.Some? ==>
              && calls != [] && c.openedAt.value <= calls[|calls| - 1].now
              && (c.phase.HalfOpen? ==> calls[|calls| - 1].now - c.openedAt.value >= cfg.cooldownMs)
  {
    if calls != [] {
      HalfOpenAfterCooldown(cfg, calls[..|calls| - 1]);
      BreakerConsistent(cfg, calls[..|calls| - 1]);
      if |calls| > 1 { assert calls[|calls| - 2].now <= calls[|calls| - 1].now; }
    }
  }

  /** Whatever was called in between, a request strictly within the cooldown of the last opening is refused. */
  lemma {:induction false} RefusedDuringCooldown(cfg: Config, calls: seq<Call>, now: int)
    requires cfg.failureThreshold >= 1 && Monotone(calls + [Ask(now)])
    requires After(cfg, calls).openedAt.Some? && now - After(cfg, calls).openedAt.value < cfg.cooldownMs
    ensures !Allowed(cfg, After(cfg, calls), now).1 && Allowed(cfg, After(cfg, calls), now).0 == After(cfg, calls)
  {
    var all := calls + [Ask(now)];
    forall i, j | 0 <= i < j < |calls|
      ensures calls[i].now <= calls[j].now
    {
      assert all[i].now <= all[j].now;
    }
    HalfOpenAfterCooldown(cfg, calls);
    BreakerConsistent(cfg, calls);
    assert all[|calls| - 1].now <= all[|calls|].now;
  }

  function Asks(times: seq<int>): seq<Call> {
    seq(|times|, i requires 0 <= i < |times| => Ask(times[i]))
  }

  lemma {:induction false} AskingHalfOpen(cfg: Config, calls: seq<Call>, now: int)
    requires After(cfg, calls).phase.HalfOpen?
    ensures After(cfg, calls + [Ask(now)]) == After(cfg, calls)
  {
    assert (calls + [Ask(now)])[..|calls|] == calls;
  }

  /** Asking never uses up a half-open breaker. */
  lemma {:induction false} HalfOpenStays(cfg: Config, calls: seq<Call>, times: seq<int>)
    requires After(cfg, calls).phase.HalfOpen?
    ensures After(cfg, calls + Asks(times)) == After(cfg, calls)
  {
    hide After;
    if times == [] {
      assert calls + Asks(times) == calls;
    } else {
      var last := |times| - 1;
      HalfOpenStays(cfg, calls, times[..last]);
      AskingHalfOpen(cfg, calls + Asks(times[..last]), times[last]);
      assert calls + Asks(times) == calls + Asks(times[..last]) + [Ask(times[last])];
    }
  }

  /**
   The limit on half-open trials limits nothing: after any number of requests a half-open breaker lets one more pass.
   */
  lemma {:induction false} HalfOpenTrialsUnlimited(cfg: Config, calls: seq<Call>, times: seq<int>, now: int)
    requires cfg.failureThreshold >= 1 && After(cfg, calls).phase.HalfOpen?
    ensures Allowed(cfg, After(cfg, calls + Asks(times)), now).1 <==> cfg.maxHalfOpenTrials >= 1
  {
    BreakerConsistent(cfg, calls);
    HalfOpenStays(cfg, calls, times);
  }
}
