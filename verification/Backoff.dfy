/**
 * Retry delays: the broker policy of `ferredge-core` and the Modbus policy.
 * The methods run the saturating loops of the program; `DelayMs` and `DelayFor` are closed
 * forms over unbounded integers.
 */
module Backoff {
  import opened Wrappers
  import opened Widths

  datatype Strategy = Fixed | Exponential

  function Pow(b: nat, e: nat): nat {
    if e == 0 then 1 else b * Pow(b, e - 1)
  }

  lemma {:induction false} PowMonotone(b: nat, low: nat, high: nat)
    requires 1 <= b && low <= high
    ensures 1 <= Pow(b, low) <= Pow(b, high)
    decreases high
  {
    if low < high {
      PowMonotone(b, low, high - 1);
      assert Pow(b, high) == b * Pow(b, high - 1) >= Pow(b, high - 1);
    } else if high > 0 {
      PowMonotone(b, low - 1, high - 1);
      assert Pow(b, high) == b * Pow(b, high - 1) >= 1;
    }
  }

  /** `base * b^e`, the uncapped delay after `e` multiplications. */
  function Grown(base: nat, b: nat, e: nat): nat {
    base * Pow(b, e)
  }

  lemma GrownMonotone(base: nat, b: nat, low: nat, high: nat)
    requires 1 <= b && low <= high
    ensures Grown(base, b, low) <= Grown(base, b, high)
  {
    PowMonotone(b, low, high);
    assert base * Pow(b, low) <= base * Pow(b, high);
  }

  lemma GrownStep(base: nat, b: nat, e: nat)
    ensures Grown(base, b, e + 1) == Grown(base, b, e) * b
  {
    assert base * (b * Pow(b, e)) == base * Pow(b, e) * b;
  }

  /** The growth loop both policies share: multiply, saturate at `width`, stop at the cap. */
  method GrowCapped(base: nat, multiplier: nat, cap: nat, width: nat, rounds: nat) returns (delay: nat)
    requires 1 <= multiplier && cap <= width
    ensures rounds > 0 ==> delay == Min(cap, Grown(base, multiplier, rounds))
    ensures rounds == 0 ==> delay == base
  {
    delay := base;
    for i := 0 to rounds
      invariant delay == Grown(base, multiplier, i)
      invariant i > 0 ==> delay < cap
    {
      GrownStep(base, multiplier, i);
      delay := Min(width, delay * multiplier);
      if delay >= cap {
        GrownMonotone(base, multiplier, i + 1, rounds);
        return cap;
      }
    }
  }

  datatype BrokerReconnectConfig = BrokerReconnectConfig(
    enabled: bool,
    initialDelayMs: uint64,
    maxDelayMs: uint64,
    strategy: Strategy,
    multiplier: uint32,
    maxAttempts: Option<uint32>,
    replaySubscriptions: bool,
    queueRequestsWhileDisconnected: bool,
    maxQueuedRequests: uint32)
  {
    predicate AllowsAttempt(attempt: uint32) {
      enabled && (maxAttempts.Some? ==> attempt <= maxAttempts.value)
    }

    function DelayMs(attempt: uint32): int {
      if attempt <= 1 || strategy.Fixed? then
        Min(initialDelayMs, maxDelayMs)
      else
        Min(maxDelayMs, Grown(Max(initialDelayMs, 1), Max(multiplier, 1), attempt - 1))
    }

    method DelayMsForAttempt(attempt: uint32) returns (delay: int)
      ensures delay == DelayMs(attempt)
    {
      if attempt <= 1 {
        return Min(initialDelayMs, maxDelayMs);
      }
      match strategy
      case Fixed =>
        delay := Min(initialDelayMs, maxDelayMs);
      case Exponential =>
        delay := GrowCapped(Max(initialDelayMs, 1), Max(multiplier, 1), maxDelayMs, UINT64_MAX, attempt - 1);
    }
  }

  /** Broker delays never exceed the cap and never shrink from one attempt to a later one. */
  lemma BrokerDelayCappedAndMonotone(c: BrokerReconnectConfig, early: uint32, late: uint32)
    requires early <= late
    ensures 0 <= c.DelayMs(early) <= c.DelayMs(late) <= c.maxDelayMs
  {
    var base, m := Max(c.initialDelayMs, 1), Max(c.multiplier, 1);
    if late > 1 {
      GrownMonotone(base, m, if early > 1 then early - 1 else 0, late - 1);
      assert Grown(base, m, 0) == base;
    }
  }

  lemma CappedStep(base: nat, m: nat, cap: nat, e: nat)
    requires 1 <= m
    ensures Min(cap, Grown(base, m, e + 1)) == Min(cap, Min(cap, Grown(base, m, e)) * m)
  {
    GrownStep(base, m, e);
    assert cap <= cap * m;
  }

  /**
   * How broker delays grow: attempts 0 and 1 wait the capped initial delay, and so does every one of a
   * fixed policy; an exponential one multiplies from one attempt to the next, from at least 1 ms and by
   * at least 1, up to the cap.
   */
  lemma BrokerDelayGrows(c: BrokerReconnectConfig, attempt: uint32)
    ensures attempt <= 1 || c.strategy.Fixed? ==> c.DelayMs(attempt) == Min(c.initialDelayMs, c.maxDelayMs)
    ensures attempt == 2 && c.strategy.Exponential? ==>
              c.DelayMs(attempt) == Min(c.maxDelayMs, Max(c.initialDelayMs, 1) * Max(c.multiplier, 1))
    ensures attempt > 2 && c.strategy.Exponential? ==>
              c.DelayMs(attempt) == Min(c.maxDelayMs, c.DelayMs(attempt - 1) * Max(c.multiplier, 1))
  {
    var base, m := Max(c.initialDelayMs, 1), Max(c.multiplier, 1);
    if attempt >= 2 {
      CappedStep(base, m, c.maxDelayMs, attempt - 2);
      assert Grown(base, m, 0) == base && Grown(base, m, 1) == base * m;
    }
  }

  /** A span of time in nanoseconds, wide enough for `u64::MAX` seconds. */
  type Duration = n: int | 0 <= n < 0x1_0000_0000_0000_0000 * 1_000_000_000

  function AsMillis(d: Duration): nat {
    d / 1_000_000
  }

  function FromMillis(ms: uint64): Duration {
    ms * 1_000_000
  }

  datatype ModbusReconnectConfig = ModbusReconnectConfig(
    enabled: bool,
    initialDelay: Option<Duration>,
    maxDelay: Option<Duration>,
    strategy: Strategy,
    multiplier: uint32,
    maxAttempts: uint32,
    retryWrites: bool)
  {
    predicate AllowsAttempt(attempt: uint32) {
      enabled && attempt <= maxAttempts
    }

    /** The delay in closed form: attempt 1 waits the initial delay uncapped. */
    function DelayFor(attempt: uint32): Option<Duration> {
      if initialDelay.None? then
        None
      else if attempt <= 1 then
        initialDelay
      else
        var cap := maxDelay.GetOr(initialDelay.value);
        if strategy.Fixed? then
          Some(Min(initialDelay.value, cap))
        else
          var base, capMs := Max(AsMillis(initialDelay.value), 1), Max(AsMillis(cap), 1);
          Some(FromMillis(Min(UINT64_MAX, Min(capMs, Grown(base, Max(multiplier, 1), attempt - 1)))))
    }

    method DelayForAttempt(attempt: uint32) returns (delay: Option<Duration>)
      ensures delay == DelayFor(attempt)
    {
      if initialDelay.None? {
        return None;
      }
      var initial := initialDelay.value;
      if attempt <= 1 {
        return Some(initial);
      }
      var cap := maxDelay.GetOr(initial);
      match strategy
      case Fixed =>
        delay := Some(Min(initial, cap));
      case Exponential =>
        var millis := GrowCapped(Max(AsMillis(initial), 1), Max(multiplier, 1), Max(AsMillis(cap), 1),
                                 UINT128_MAX, attempt - 1);
        delay := Some(FromMillis(Min(millis, UINT64_MAX)));
    }
  }

  /**
   * From attempt 2 on the Modbus delay is capped by `max_delay`, raised to at least 1 ms by the
   * exponential form, and never shrinks.
   */
  lemma ModbusDelayCappedAndMonotone(c: ModbusReconnectConfig, early: uint32, late: uint32)
    requires c.initialDelay.Some? && 2 <= early <= late
    ensures c.DelayFor(early).Some? && c.DelayFor(late).Some?
    ensures c.DelayFor(early).value <= c.DelayFor(late).value
    ensures c.DelayFor(late).value <= Max(c.maxDelay.GetOr(c.initialDelay.value), 1_000_000)
  {
    GrownMonotone(Max(AsMillis(c.initialDelay.value), 1), Max(c.multiplier, 1), early - 1, late - 1);
  }

  /**
   * How Modbus delays grow: none without an initial delay, which attempts 0 and 1 wait as it is; later
   * ones of a fixed policy wait it capped, and an exponential policy multiplies whole milliseconds, from
   * at least 1 and up to the cap in milliseconds, at least 1.
   */
  lemma ModbusDelayGrows(c: ModbusReconnectConfig, attempt: uint32)
    ensures c.initialDelay.None? ==> c.DelayFor(attempt) == None
    ensures c.initialDelay.Some? && attempt <= 1 ==> c.DelayFor(attempt) == c.initialDelay
    ensures c.initialDelay.Some? && attempt > 1 && c.strategy.Fixed? ==>
              c.DelayFor(attempt) == Some(if c.maxDelay.Some? && c.maxDelay.value < c.initialDelay.value then c.maxDelay.value
                                          else c.initialDelay.value)
    ensures c.initialDelay.Some? && attempt > 1 && c.strategy.Exponential? ==>
              var capMs := Max(c.maxDelay.GetOr(c.initialDelay.value) / 1_000_000, 1);
              var m, last := Max(c.multiplier, 1), c.DelayFor(attempt - 1);
              && last.Some? && c.DelayFor(attempt).Some?
              && var before := if attempt == 2 then Max(c.initialDelay.value / 1_000_000, 1) else last.value / 1_000_000;
                 c.DelayFor(attempt).value == Min(UINT64_MAX, Min(capMs, before * m)) * 1_000_000
  {
    if c.initialDelay.Some? && attempt > 1 && c.strategy.Exponential? {
      var base, m := Max(AsMillis(c.initialDelay.value), 1), Max(c.multiplier, 1);
      var capMs := Max(AsMillis(c.maxDelay.GetOr(c.initialDelay.value)), 1);
      assert Grown(base, m, 0) == base && Grown(base, m, 1) == base * m;
      CappedStep(base, m, Min(UINT64_MAX, capMs), attempt - 2);
    }
  }

  /** The cap in force: `max_delay`, or the initial delay when it is omitted. */
  function CapOf(c: ModbusReconnectConfig): Duration
    requires c.initialDelay.Some?
  {
    c.maxDelay.GetOr(c.initialDelay.value)
  }

  predicate RespectsCap(c: ModbusReconnectConfig, attempt: uint32)
    requires c.initialDelay.Some?
  {
    c.DelayFor(attempt).Some? && c.DelayFor(attempt).value <= CapOf(c)
  }

  /**
   * Every attempt respects the cap exactly when the initial delay does, for attempt 1 is not
   * capped, and either the delay is fixed or the cap is at least the 1 ms it is raised to.
   */
  lemma ModbusCapRespectedExactly(c: ModbusReconnectConfig)
    requires c.initialDelay.Some?
    ensures (forall n: uint32 :: RespectsCap(c, n))
            <==> c.initialDelay.value <= CapOf(c) && (c.strategy.Fixed? || CapOf(c) >= 1_000_000)
  {
    if c.initialDelay.value <= CapOf(c) && (c.strategy.Fixed? || CapOf(c) >= 1_000_000) {
      forall n: uint32
        ensures RespectsCap(c, n)
      {
        if n >= 2 {
          ModbusDelayCappedAndMonotone(c, n, n);
        }
      }
    } else {
      assert RespectsCap(c, 1) <==> c.initialDelay.value <= CapOf(c);
      if c.strategy.Exponential? && CapOf(c) < 1_000_000 {
        PowMonotone(Max(c.multiplier, 1), 0, 1);
        var base := Max(AsMillis(c.initialDelay.value), 1);
        assert Grown(base, Max(c.multiplier, 1), 1) >= base;
        assert !RespectsCap(c, 2);
      }
    }
  }
}
