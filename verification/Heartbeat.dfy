/** Ticks on a fixed grid and the heartbeats that a leader sends on them. */
module Heartbeat {
  import opened Common

  // ---- Ticks ----

  /** `at` is a whole number of steps after `first`. */
  ghost predicate OnGrid(first: nat, step: nat, at: nat) {
    exists k: nat :: at == first + k * step
  }

  /** The next deadline after waking at `now`: elapsed time rounded up to a whole number of steps. */
  function NextDeadline(first: nat, step: nat, now: nat): (at: nat)
    requires 0 < step && first <= now
    ensures OnGrid(first, step, at) && now < at <= now + step
  {
    var offset := now - first;
    assert offset - offset % step + step == (offset / step + 1) * step;
    first + (offset - offset % step + step)
  }

  lemma MulMonotone(a: nat, b: nat, c: nat)
    requires a <= b
    ensures a * c <= b * c
  {
    assert b * c == a * c + (b - a) * c;
  }

  lemma MulCancel(a: nat, b: nat, c: nat)
    requires a * c < b * c
    ensures a < b
  {
    if b <= a { MulMonotone(b, a, c); }
  }

  /** The deadline is the first grid point after the wake, so wake latency never shifts the grid. */
  lemma DeadlineIsFirstAfterWake(first: nat, step: nat, now: nat, k: nat)
    requires 0 < step && first <= now < first + k * step
    ensures NextDeadline(first, step, now) <= first + k * step
  {
    var offset := now - first;
    var q := offset / step;
    assert q * step + offset % step == offset;
    MulCancel(q, k, step);
    MulMonotone(q + 1, k, step);
    assert (q + 1) * step == q * step + step;
  }

  /**
   * The tick loop. The i-th sleep ends `late[i]` after its deadline; a tick is sent if ticking is
   * enabled then. Every deadline is on the grid, however late the wakes are.
   */
  method TickLoop(first: nat, period: nat, late: seq<nat>, enabled: seq<bool>)
    returns (deadlines: seq<nat>, ticks: seq<nat>)
    requires |late| == |enabled|
    ensures |deadlines| == |late| + 1 && deadlines[0] == first
    ensures var step := if period == 0 then 1 else period;
            && (forall i | 0 <= i <= |late| :: OnGrid(first, step, deadlines[i]))
            && (forall i | 0 <= i < |late| ::
              deadlines[i] + late[i] < deadlines[i + 1] <= deadlines[i] + late[i] + step)
    ensures |ticks| <= |late| && forall i | 0 <= i < |ticks| :: ticks[i] == i + 1
    ensures (forall i | 0 <= i < |enabled| :: enabled[i]) ==> |ticks| == |late|
  {
    var step := if period == 0 then 1 else period;
    var at := first;
    assert at == first + 0 * step;
    deadlines, ticks := [at], [];
    var n := 0;
    for i := 0 to |late|
      invariant |deadlines| == i + 1 && deadlines[0] == first && deadlines[i] == at && first <= at
      invariant forall j | 0 <= j <= i :: OnGrid(first, step, deadlines[j])
      invariant forall j | 0 <= j < i :: deadlines[j] + late[j] < deadlines[j + 1] <= deadlines[j] + late[j] + step
      invariant n == |ticks| <= i && forall j | 0 <= j < n :: ticks[j] == j + 1
      invariant (forall j | 0 <= j < i :: enabled[j]) ==> n == i
    {
      at := NextDeadline(first, step, at + late[i]);
      deadlines := deadlines + [at];
      if enabled[i] {
        n := n + 1;
        ticks := ticks + [n];
      }
    }
  }

  // ---- Configuration ----

  datatype ConfigError =
    | ElectionTimeout
    | ElectionTimeoutBelowHeartbeat
    | MinIntervalTooLarge
    | MaxPayloadIsZero
    | BadBackoff

  datatype Config = Config(
    electionTimeoutMin: nat,
    electionTimeoutMax: nat,
    heartbeatInterval: nat,
    heartbeatMinInterval: Option<nat>,
    maxPayloadEntries: nat,
    backoffParses: bool
  ) {
    function MinInterval(): nat { if heartbeatMinInterval.Some? then heartbeatMinInterval.value else 0 }

    function TickInterval(): (t: nat)
      ensures 1 <= t && (t == 1 || 64 * t <= 13 * heartbeatInterval) && 13 * heartbeatInterval < 64 * (t + 1)
    {
      var t := heartbeatInterval * 13 / 64;
      if t < 1 then 1 else t
    }

    function Validate(): (r: Result<Config, ConfigError>)
      ensures r.Ok? ==> r.value == this
      ensures r.Ok? <==>
                && heartbeatInterval < electionTimeoutMin < electionTimeoutMax && 0 < maxPayloadEntries && backoffParses
                && (MinInterval() == 0 || MinInterval() + heartbeatInterval + TickInterval() < electionTimeoutMin)
      ensures r == Err(ElectionTimeout) <==> electionTimeoutMax <= electionTimeoutMin
      ensures r == Err(ElectionTimeoutBelowHeartbeat) ==>
                electionTimeoutMin <= heartbeatInterval && electionTimeoutMin < electionTimeoutMax
      ensures r == Err(MinIntervalTooLarge) ==>
                && heartbeatInterval < electionTimeoutMin && 0 < MinInterval()
                && electionTimeoutMin <= MinInterval() + heartbeatInterval + TickInterval()
      ensures r == Err(MaxPayloadIsZero) ==> maxPayloadEntries == 0
      ensures r == Err(BadBackoff) ==> !backoffParses && 0 < maxPayloadEntries
    {
      if electionTimeoutMin >= electionTimeoutMax then Err(ElectionTimeout)
      else if electionTimeoutMin <= heartbeatInterval then Err(ElectionTimeoutBelowHeartbeat)
      else if MinInterval() > 0 && electionTimeoutMin <= MinInterval() + heartbeatInterval + TickInterval() then
        Err(MinIntervalTooLarge)
      else if maxPayloadEntries == 0 then Err(MaxPayloadIsZero)
      else if !backoffParses then Err(BadBackoff)
      else Ok(this)
    }
  }

  // ---- Heartbeats ----

  /** Whether a follower whose last acked RPC was sent at `acked` needs a heartbeat. */
  predicate NeedHeartbeat(acked: Option<nat>, now: nat, minInterval: nat) {
    acked.Some? ==> acked.value + minInterval <= now
  }

  /** The leader's heartbeat timer. */
  class HeartbeatTimer {
    const config: Config
    var nextHeartbeat: nat

    constructor (config: Config, now: nat)
      ensures this.config == config && nextHeartbeat == now
    {
      this.config, nextHeartbeat := config, now;
    }

    /** Handle a tick: once the timer is due it is set anew, and the followers that need a heartbeat get one. */
    method HandleTick(now: nat, acked: map<nat, Option<nat>>) returns (sent: set<nat>)
      modifies this
      ensures nextHeartbeat == After(config, old(nextHeartbeat), now)
      ensures forall id | id in acked :: id in sent <==> SendsAt(config, old(nextHeartbeat), now, acked[id])
      ensures now < old(nextHeartbeat) ==> sent == {} && nextHeartbeat == old(nextHeartbeat)
      ensures old(nextHeartbeat) <= now ==> nextHeartbeat == now + config.heartbeatInterval
      ensures forall id | id in sent ::
                id in acked && (acked[id].Some? ==> acked[id].value + config.MinInterval() <= now)
      ensures forall id | id in acked && old(nextHeartbeat) <= now && id !in sent ::
                acked[id].Some? && now < acked[id].value + config.MinInterval()
    {
      sent := {};
      if nextHeartbeat <= now {
        sent := set id | id in acked && NeedHeartbeat(acked[id], now, config.MinInterval());
        nextHeartbeat := now + config.heartbeatInterval;
      }
    }
  }

  function After(config: Config, next: nat, now: nat): nat {
    if next <= now then now + config.heartbeatInterval else next
  }

  predicate SendsAt(config: Config, next: nat, now: nat, acked: Option<nat>) {
    next <= now && NeedHeartbeat(acked, now, config.MinInterval())
  }

  /** The time of the k-th tick that a leader handles, when no tick is late. */
  function TickTime(config: Config, first: nat, k: nat): nat {
    first + k * config.TickInterval()
  }

  lemma TickStep(config: Config, first: nat, k: nat)
    ensures TickTime(config, first, k + 1) == TickTime(config, first, k) + config.TickInterval()
  {
    var t := config.TickInterval();
    assert (k + 1) * t == k * t + t;
  }

  /** The timer before the k-th tick. */
  function NextAt(config: Config, start: nat, first: nat, k: nat): nat {
    if k == 0 then start else After(config, NextAt(config, start, first, k - 1), TickTime(config, first, k - 1))
  }

  /** The timer is never set further ahead than one heartbeat interval past the last tick. */
  lemma {:induction false} TimerIsNear(config: Config, start: nat, first: nat, k: nat, bound: nat)
    requires start <= bound && (0 < k ==> TickTime(config, first, k - 1) <= bound)
    ensures NextAt(config, start, first, k) <= bound + config.heartbeatInterval
  {
    hide TickTime;
    if 0 < k {
      if 1 < k { TickStep(config, first, k - 2); }
      TimerIsNear(config, start, first, k - 1, bound);
    }
  }

  /** From any tick on, the timer comes due within one step of its setting. */
  lemma {:induction false} ComesDue(config: Config, start: nat, first: nat, k: nat) returns (j: nat)
    ensures NextAt(config, start, first, j) == NextAt(config, start, first, k) <= TickTime(config, first, j)
    ensures TickTime(config, first, k) <= TickTime(config, first, j)
    ensures j == k || TickTime(config, first, j) < NextAt(config, start, first, k) + config.TickInterval()
    decreases NextAt(config, start, first, k) - TickTime(config, first, k)
  {
    hide TickTime;
    if NextAt(config, start, first, k) <= TickTime(config, first, k) {
      j := k;
    } else {
      TickStep(config, first, k);
      j := ComesDue(config, start, first, k + 1);
    }
  }

  /** The first tick at or after `at`. */
  lemma FirstTickFrom(config: Config, first: nat, at: nat) returns (k: nat)
    ensures at <= TickTime(config, first, k)
    ensures if k == 0 then TickTime(config, first, k) == first
            else TickTime(config, first, k - 1) < at && TickTime(config, first, k) < at + config.TickInterval()
  {
    k := 0;
    assert TickTime(config, first, 0) == first;
    hide TickTime;
    while TickTime(config, first, k) < at
      invariant if k == 0 then TickTime(config, first, k) == first
                else TickTime(config, first, k - 1) < at && TickTime(config, first, k) < at + config.TickInterval()
      decreases at - TickTime(config, first, k)
    {
      TickStep(config, first, k);
      k := k + 1;
    }
  }

  /** A heartbeat to a follower last acked at `acked` is sent on tick `k`, after that and in time. */
  ghost predicate InTime(config: Config, start: nat, first: nat, acked: nat, k: nat) {
    && SendsAt(config, NextAt(config, start, first, k), TickTime(config, first, k), Some(acked))
    && acked < TickTime(config, first, k) < acked + config.electionTimeoutMin
  }

  /**
   * Heartbeat gap: with a validated config that suppresses heartbeats, a follower whose last acked RPC
   * was sent at `acked` is sent the next heartbeat less than the least election timeout later.
   * The leader started no later than that RPC, and its first tick came at most one step after it.
   */
  lemma NextHeartbeatIsInTime(config: Config, start: nat, first: nat, acked: nat) returns (k: nat)
    requires config.Validate().Ok? && 0 < config.MinInterval()
    requires start <= acked && first <= acked + config.TickInterval()
    ensures InTime(config, start, first, acked, k)
  {
    hide TickTime;
    hide NextAt;
    hide Config.TickInterval;
    var due := acked + config.MinInterval();
    var j := FirstTickFrom(config, first, due);
    TimerIsNear(config, start, first, j, due - 1);
    k := ComesDue(config, start, first, j);
  }

  /**
   * Without suppression a validated config gives no such bound: here a follower waits 1015 ms for its
   * next heartbeat, beyond the least election timeout of 1001 ms.
   */
  lemma UnsuppressedHeartbeatMayBeLate(k: nat)
    ensures var config := Config(1001, 2000, 1000, None, 1, true);
            var now := TickTime(config, 0, k);
            && config.Validate().Ok?
            && SendsAt(config, NextAt(config, 0, 0, 0), 0, None)
            && (0 < now < config.electionTimeoutMin ==> !SendsAt(config, NextAt(config, 0, 0, k), now, Some(0)))
  {
    var config := Config(1001, 2000, 1000, None, 1, true);
    assert config.TickInterval() == 203;
    assert NextAt(config, 0, 0, 1) == 1000;
    assert NextAt(config, 0, 0, 2) == 1000;
    assert NextAt(config, 0, 0, 3) == 1000;
    assert NextAt(config, 0, 0, 4) == 1000;
    if 0 < k && k * 203 < 1001 {
      assert k == 1 || k == 2 || k == 3 || k == 4;
    }
  }

  /** How many steps of `t` it takes to reach `x`. */
  function StepsTo(x: nat, t: nat): (n: nat)
    requires 0 < t
    ensures x <= n * t < x + t
  {
    (x + t - 1) / t
  }

  /** How many ticks after a heartbeat the timer is due again: the interval rounded up, and at least one tick. */
  function TicksBetween(config: Config): (n: nat)
    ensures 1 <= n && config.heartbeatInterval <= n * config.TickInterval()
    ensures n == 1 || (n - 1) * config.TickInterval() < config.heartbeatInterval
  {
    var n := StepsTo(config.heartbeatInterval, config.TickInterval());
    assert (n - 1) * config.TickInterval() == n * config.TickInterval() - config.TickInterval();
    if n == 0 then 1 else n
  }

  lemma TickLater(config: Config, first: nat, k: nat, d: nat)
    ensures TickTime(config, first, k + d) == TickTime(config, first, k) + d * config.TickInterval()
  {
    var t := config.TickInterval();
    assert (k + d) * t == k * t + d * t;
  }

  ghost predicate DueAt(config: Config, start: nat, first: nat, k: nat) {
    NextAt(config, start, first, k) <= TickTime(config, first, k)
  }

  /** After a heartbeat on tick `k`, the timer stays set until it is due. */
  lemma {:induction false} StaysSet(config: Config, start: nat, first: nat, k: nat, d: nat)
    requires DueAt(config, start, first, k) && 0 < d
    requires d == 1 || (d - 1) * config.TickInterval() < config.heartbeatInterval
    ensures NextAt(config, start, first, k + d) == TickTime(config, first, k) + config.heartbeatInterval
  {
    hide TickTime;
    hide Config.TickInterval;
    if 1 < d {
      MulMonotone(d - 2, d - 1, config.TickInterval());
      StaysSet(config, start, first, k, d - 1);
      TickLater(config, first, k, d - 1);
    }
  }

  /** The next heartbeat after the one on tick `k` is sent exactly `TicksBetween` ticks later. */
  lemma NextHeartbeatIs(config: Config, start: nat, first: nat, k: nat)
    requires DueAt(config, start, first, k)
    ensures DueAt(config, start, first, k + TicksBetween(config))
    ensures forall j: nat | k < j < k + TicksBetween(config) :: !DueAt(config, start, first, j)
  {
    hide TickTime;
    hide NextAt;
    hide Config.TickInterval;
    hide TicksBetween;
    var n, t := TicksBetween(config), config.TickInterval();
    StaysSet(config, start, first, k, n);
    TickLater(config, first, k, n);
    forall j: nat | k < j < k + n ensures !DueAt(config, start, first, j) {
      var d := j - k;
      MulMonotone(d, n - 1, t);
      MulMonotone(d - 1, d, t);
      StaysSet(config, start, first, k, d);
      TickLater(config, first, k, d);
    }
  }

  ghost predicate SomeInTime(config: Config, start: nat, first: nat, acked: nat) {
    exists k: nat :: InTime(config, start, first, acked, k)
  }

  /**
   * Whenever an RPC was acked, to a leader that had started and had its first tick by then, the next
   * heartbeat is in time.
   */
  ghost predicate AlwaysInTime(config: Config) {
    forall start: nat, first: nat, acked: nat | start <= acked && first <= acked + config.TickInterval() ::
      SomeInTime(config, start, first, acked)
  }

  /**
   * With suppression off, any heartbeat is followed by the next one in time exactly when the interval,
   * rounded up to whole ticks and to at least one, is below the least election timeout.
   */
  lemma UnsuppressedInTimeIff(config: Config, start: nat, first: nat, k: nat)
    requires config.MinInterval() == 0 && DueAt(config, start, first, k)
    ensures SomeInTime(config, start, first, TickTime(config, first, k))
       <==> TicksBetween(config) * config.TickInterval() < config.electionTimeoutMin
  {
    hide TicksBetween;
    hide NextAt;
    hide Config.TickInterval;
    hide TickTime;
    var n, t, sent := TicksBetween(config), config.TickInterval(), TickTime(config, first, k);
    NextHeartbeatIs(config, start, first, k);
    TickLater(config, first, k, n);
    MulMonotone(1, n, t);
    assert n * t < config.electionTimeoutMin ==> InTime(config, start, first, sent, k + n);
    forall j: nat | InTime(config, start, first, sent, j) ensures n * t < config.electionTimeoutMin {
      LaterTick(config, first, k, j);
      assert DueAt(config, start, first, j);
      TickOrder(config, first, k + n, j);
    }
  }

  lemma LaterTick(config: Config, first: nat, k: nat, j: nat)
    requires TickTime(config, first, k) < TickTime(config, first, j)
    ensures k < j
  {
    MulCancel(k, j, config.TickInterval());
  }

  /** The bound that holds with suppression on holds with suppression off exactly under that condition. */
  lemma UnsuppressedAlwaysInTimeIff(config: Config)
    requires config.MinInterval() == 0
    ensures AlwaysInTime(config) <==> TicksBetween(config) * config.TickInterval() < config.electionTimeoutMin
  {
    hide TicksBetween;
    hide Config.TickInterval;
    if TicksBetween(config) * config.TickInterval() < config.electionTimeoutMin {
      forall start: nat, first: nat, acked: nat | start <= acked && first <= acked + config.TickInterval()
        ensures SomeInTime(config, start, first, acked)
      {
        var k := UnsuppressedNext(config, start, first, acked);
      }
    } else {
      assert TickTime(config, 0, 0) == 0 && NextAt(config, 0, 0, 0) == 0;
      UnsuppressedInTimeIff(config, 0, 0, 0);
      assert !SomeInTime(config, 0, 0, 0);
    }
  }

  lemma UnsuppressedNext(config: Config, start: nat, first: nat, acked: nat) returns (k: nat)
    requires config.MinInterval() == 0 && start <= acked && first <= acked + config.TickInterval()
    requires TicksBetween(config) * config.TickInterval() < config.electionTimeoutMin
    ensures InTime(config, start, first, acked, k)
  {
    hide TickTime;
    hide NextAt;
    hide Config.TickInterval;
    hide TicksBetween;
    var n, t := TicksBetween(config), config.TickInterval();
    MulMonotone(1, n, t);
    var j := FirstTickFrom(config, first, acked + 1);
    var last, some := LastHeartbeat(config, start, first, j);
    k := j;
    if some {
      NextHeartbeatIs(config, start, first, last);
      TickLater(config, first, last, n);
      k := last + n;
      assert DueAt(config, start, first, k) && j <= k;
      TickOrder(config, first, last, j - 1);
      TickOrder(config, first, j, k);
    }
  }

  lemma TickOrder(config: Config, first: nat, j: nat, k: nat)
    requires j <= k
    ensures TickTime(config, first, j) <= TickTime(config, first, k)
  {
    MulMonotone(j, k, config.TickInterval());
  }

  /** The last tick before `k` with a heartbeat, or the timer as it was at the start. */
  lemma {:induction false} LastHeartbeat(config: Config, start: nat, first: nat, k: nat) returns (j: nat, some: bool)
    ensures some ==> j < k && DueAt(config, start, first, j) && forall i | j < i < k :: !DueAt(config, start, first, i)
    ensures !some ==> NextAt(config, start, first, k) == start
  {
    hide TickTime;
    if k == 0 {
      j, some := 0, false;
    } else if DueAt(config, start, first, k - 1) {
      j, some := k - 1, true;
    } else {
      j, some := LastHeartbeat(config, start, first, k - 1);
    }
  }
}
