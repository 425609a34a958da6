// The capacity governor: it grows slowly, shrinks fast, and pauses on critical memory.
// Models `Pressure` and `AdaptiveCapacity` of agent/scheduler.py.

module CapacityModel {
  import opened Settings

  const MIB: int := 1024 * 1024
  const COOLDOWN: real := 15.0

  /** `Unusable` is a reading of the wrong type or one that is not finite. */
  datatype Sample =
    | Unusable
    | Pressure(measuredAt: real, cpuBusy: Option<real>, available: Option<int>, total: Option<int>, ioStall: Option<real>)

  datatype Governor = Governor(config: Config, limit: int, healthy: nat, changedAt: real, paused: bool)

  predicate Ratio(value: Option<real>) {
    value.Some? ==> 0.0 <= value.value <= 1.0
  }

  predicate Usable(s: Sample, now: real) {
    && s.Pressure?
    && 0.0 <= now - s.measuredAt <= 15.0
    && Ratio(s.cpuBusy) && Ratio(s.ioStall)
    && s.available.Some? && s.total.Some?
    && 0 <= s.available.value <= s.total.value && s.total.value > 0
  }

  function Lower(a: real, b: real): real { if a <= b then a else b }

  function Upper(a: real, b: real): real { if a <= b then b else a }

  function Fraction(s: Sample, now: real): real
    requires Usable(s, now)
  {
    s.available.value as real / s.total.value as real
  }

  predicate Critical(s: Sample, now: real) {
    Usable(s, now) &&
    (s.available.value as real < Lower((256 * MIB) as real, s.total.value as real * 0.10) || Fraction(s, now) < 0.025)
  }

  predicate Safe(s: Sample, now: real) {
    && Usable(s, now) && s.cpuBusy.Some? && s.cpuBusy.value < 0.90
    && s.available.value as real >=
       Upper(Lower((512 * MIB) as real, s.total.value as real * 0.20), s.total.value as real * 0.10)
  }

  function Stall(s: Sample): real
    requires s.Pressure?
  {
    if s.ioStall.Some? then s.ioStall.value else 0.0
  }

  predicate Strained(s: Sample, now: real)
    requires Usable(s, now) && s.cpuBusy.Some?
  {
    Fraction(s, now) < 0.10 || s.cpuBusy.value >= 0.90 || Stall(s) >= 0.25
  }

  predicate Healthy(s: Sample, now: real)
    requires Usable(s, now) && s.cpuBusy.Some?
  {
    Fraction(s, now) >= 0.20 && s.available.value >= 1024 * MIB && s.cpuBusy.value <= 0.65 && Stall(s) < 0.10
  }

  // ---- one update ---------------------------------------------------------

  function Recovering(g: Governor, s: Sample, now: real): Governor {
    var healthy := if Safe(s, now) then g.healthy + 1 else 0;
    if healthy >= 3 && now - g.changedAt >= COOLDOWN
    then Governor(g.config, if g.config.adaptive then g.config.minimum else g.config.initial, 0, now, false)
    else g.(healthy := healthy)
  }

  function Adapting(g: Governor, s: Sample, now: real): Governor {
    var c := g.config;
    if !Usable(s, now) || s.cpuBusy.None? then
      g.(healthy := 0, limit := Min(g.limit, Max(c.minimum, Min(4, c.maximum))), changedAt := now)
    else if Strained(s, now) then
      g.(healthy := 0, limit := Max(c.minimum, g.limit - Max(1, g.limit / 4)), changedAt := now)
    else
      var healthy := if Healthy(s, now) then g.healthy + 1 else 0;
      if healthy >= 3 && now - g.changedAt >= COOLDOWN then
        var ceiling := Max(c.minimum, s.available.value / (512 * MIB));
        g.(limit := Min(c.maximum, Min(ceiling, Max(c.minimum, g.limit + 1))), changedAt := now, healthy := 0)
      else g.(healthy := healthy)
  }

  function Updated(g: Governor, s: Sample, now: real): Governor {
    if Critical(s, now) then Governor(g.config, 0, 0, now, true)
    else if g.paused then Recovering(g, s, now)
    else if !g.config.adaptive then g.(limit := g.config.initial)
    else Adapting(g, s, now)
  }

  function Reconfigured(g: Governor, config: Config, now: real): Governor {
    Governor(config,
             if g.paused then 0
             else if !config.adaptive then config.initial
             else Max(config.minimum, Min(g.limit, config.maximum)),
             0, now, g.paused)
  }

  // ---- what a reading does, in bytes, shares and seconds ---------------------

  /** A reading of the last 15 seconds whose numbers make sense. */
  predicate Fresh(s: Sample, now: real) {
    && s.Pressure? && s.measuredAt <= now <= s.measuredAt + 15.0
    && (s.cpuBusy.Some? ==> 0.0 <= s.cpuBusy.value <= 1.0) && (s.ioStall.Some? ==> 0.0 <= s.ioStall.value <= 1.0)
    && s.available.Some? && s.total.Some? && 0 <= s.available.value <= s.total.value && 0 < s.total.value
  }

  /** An emergency begins exactly with a fresh reading of less than 2.5 % of the memory, or of
      less than 256 MiB and 10 %; it stops everything. */
  lemma EmergencyMeans(g: Governor, s: Sample, now: real)
    requires !g.paused
    ensures Updated(g, s, now).paused <==>
            Fresh(s, now) &&
            (1000 * s.available.value < 25 * s.total.value || (s.available.value < 268435456 && 10 * s.available.value < s.total.value))
    ensures Updated(g, s, now).paused ==> Updated(g, s, now).limit == 0 && Updated(g, s, now).changedAt == now
  {
    if Fresh(s, now) { ShareOf(s.available.value, s.total.value); }
  }

  lemma ShareOf(part: int, whole: int)
    requires whole > 0
    ensures part as real / whole as real < 0.025 <==> 1000 * part < 25 * whole
    ensures part as real / whole as real < 0.10 <==> 10 * part < whole
    ensures part as real / whole as real >= 0.20 <==> 5 * part >= whole
    ensures part as real < whole as real * 0.10 <==> 10 * part < whole
    ensures part as real < whole as real * 0.20 <==> 5 * part < whole
  {
    ShareBelow(part as real, whole as real, 0.025);
    ShareBelow(part as real, whole as real, 0.10);
    ShareBelow(part as real, whole as real, 0.20);
    Tenths(part, whole);
  }

  lemma ShareBelow(p: real, w: real, share: real)
    requires w > 0.0
    ensures p / w < share <==> p < share * w
  {
    Quotient(p, w);
    Scaled(p / w, share, w);
  }

  lemma Tenths(part: int, whole: int)
    ensures part as real < 0.025 * whole as real <==> 1000 * part < 25 * whole
    ensures part as real < 0.10 * whole as real <==> 10 * part < whole
    ensures part as real < 0.20 * whole as real <==> 5 * part < whole
  {
    assert 1000.0 * part as real == (1000 * part) as real && 25.0 * whole as real == (25 * whole) as real;
    assert 10.0 * part as real == (10 * part) as real && 5.0 * part as real == (5 * part) as real;
  }

  lemma Scaled(x: real, y: real, w: real)
    requires w > 0.0
    ensures x < y <==> x * w < y * w
  {
    if x < y { assert (y - x) * w > 0.0; } else { assert (x - y) * w >= 0.0; }
  }

  lemma Quotient(p: real, w: real)
    requires w > 0.0
    ensures p / w * w == p
  {
  }

  /** Less than 10 % of the memory, a processor busy for 90 % or input and output stalled for
      25 % take a quarter of the slots away, at least one, down to the minimum. */
  lemma PressureLowers(g: Governor, s: Sample, now: real)
    requires InRange(g) && !g.paused && g.config.adaptive && Fresh(s, now) && s.cpuBusy.Some? && !Updated(g, s, now).paused
    requires 10 * s.available.value < s.total.value || s.cpuBusy.value >= 0.90 || (s.ioStall.Some? && s.ioStall.value >= 0.25)
    ensures var l := Updated(g, s, now).limit;
            && (if g.limit > g.config.minimum then l < g.limit else l == g.limit)
            && (l == g.config.minimum || g.limit - l == if g.limit < 4 then 1 else g.limit / 4)
    ensures Updated(g, s, now).healthy == 0 && Updated(g, s, now).changedAt == now
  {
    ShareOf(s.available.value, s.total.value);
  }

  /** Without a usable reading the limit never rises and falls to four at most, or the minimum. */
  lemma BlindnessLowers(g: Governor, s: Sample, now: real)
    requires InRange(g) && !g.paused && g.config.adaptive && (!Fresh(s, now) || s.cpuBusy.None?) && !Updated(g, s, now).paused
    ensures var l := Updated(g, s, now).limit; l <= g.limit && (l <= 4 || l <= g.config.minimum) && (l == g.limit || l >= 4 || l == g.config.maximum)
    ensures Updated(g, s, now).healthy == 0
  {
  }

  /** The limit rises exactly on the third healthy reading in a row, 15 seconds after the last
      change, below the maximum and one slot for each 512 MiB available: by one. */
  lemma HealthRaises(g: Governor, s: Sample, now: real)
    requires InRange(g) && !g.paused && g.config.adaptive && !Updated(g, s, now).paused
    ensures Updated(g, s, now).limit > g.limit <==>
            && Fresh(s, now) && s.cpuBusy.Some? && 5 * s.available.value >= s.total.value && s.available.value >= 1073741824
            && s.cpuBusy.value <= 0.65 && (s.ioStall.Some? ==> s.ioStall.value < 0.10)
            && g.healthy >= 2 && now - g.changedAt >= 15.0
            && g.limit < g.config.maximum && g.limit < s.available.value / 536870912
    ensures Updated(g, s, now).limit > g.limit ==> Updated(g, s, now).limit == g.limit + 1 && Updated(g, s, now).changedAt == now
  {
    hide Critical;
    if Fresh(s, now) { ShareOf(s.available.value, s.total.value); }
  }

  /** What counts towards the end of an emergency: a fresh reading of the smaller of 512 MiB
      and a fifth of the memory, of a tenth in any case, and a processor busy for less than 90 %. */
  lemma SafeMeans(s: Sample, now: real)
    ensures Safe(s, now) <==>
            && Fresh(s, now) && s.cpuBusy.Some? && s.cpuBusy.value < 0.90
            && (s.available.value >= 536870912 || 5 * s.available.value >= s.total.value) && 10 * s.available.value >= s.total.value
  {
    if Fresh(s, now) { ShareOf(s.available.value, s.total.value); }
  }

  /** An emergency ends at the minimum, or at the fixed limit of a governor that does not adapt;
      outside an emergency such a governor keeps its fixed limit. */
  lemma FixedLimits(g: Governor, s: Sample, now: real)
    requires !Updated(g, s, now).paused
    ensures g.paused ==> Updated(g, s, now).limit == if g.config.adaptive then g.config.minimum else g.config.initial
    ensures !g.config.adaptive ==> Updated(g, s, now).limit == g.config.initial
  {
  }

  // ---- the limit stays in range -------------------------------------------

  predicate InRange(g: Governor) {
    && ValidConfig(g.config)
    && (g.limit == 0 <==> g.paused)
    && (!g.paused ==> g.config.minimum <= g.limit <= g.config.maximum)
  }

  lemma UpdateInRange(g: Governor, s: Sample, now: real)
    requires InRange(g)
    ensures InRange(Updated(g, s, now))
    ensures Updated(g, s, now).limit <= Max(g.limit + 1, Max(g.config.minimum, g.config.initial))
  {
    hide Critical, Safe, Strained, Healthy;
  }

  lemma ReconfigureInRange(g: Governor, config: Config, now: real)
    requires InRange(g) && ValidConfig(config)
    ensures InRange(Reconfigured(g, config, now))
    ensures Reconfigured(g, config, now).paused == g.paused && Reconfigured(g, config, now).config == config
    ensures Reconfigured(g, config, now).healthy == 0 && Reconfigured(g, config, now).changedAt == now
    ensures !g.paused && !config.adaptive ==> Reconfigured(g, config, now).limit == config.initial
    ensures !g.paused && config.adaptive && config.minimum <= g.limit <= config.maximum ==> Reconfigured(g, config, now).limit == g.limit
  {
  }

  // ---- runs ---------------------------------------------------------------

  /** A live governor reads samples, and its settings are changed between them. */
  datatype Event = Read(sample: Sample, now: real) | Settings(config: Config, now: real)

  function Next(g: Governor, e: Event): Governor {
    match e
    case Read(sample, now) => Updated(g, sample, now)
    case Settings(config, now) => Reconfigured(g, config, now)
  }

  ghost predicate Run(states: seq<Governor>, events: seq<Event>) {
    && |states| == |events| + 1
    && InRange(states[0])
    && (forall i :: 0 <= i < |events| ==> Observed(states[i], events[i], states[i+1]))
    && (forall i, j :: 0 <= i <= j < |events| ==> events[i].now <= events[j].now)
    && (events != [] ==> states[0].changedAt <= events[0].now)
  }

  ghost predicate Observed(g: Governor, e: Event, g': Governor) {
    g' == Next(g, e) && (e.Settings? ==> ValidConfig(e.config))
  }

  lemma Observation(states: seq<Governor>, events: seq<Event>, i: nat)
    requires Run(states, events) && i < |events|
    ensures states[i+1] == Next(states[i], events[i]) && (events[i].Settings? ==> ValidConfig(events[i].config))
  {
    hide Next;
    assert Observed(states[i], events[i], states[i+1]);
  }

  /** In range in every state, whatever is read and configured; no change is dated ahead. */
  lemma {:induction false} RunInRange(states: seq<Governor>, events: seq<Event>, i: nat)
    requires Run(states, events) && i <= |events|
    ensures InRange(states[i])
    ensures forall j :: i <= j < |events| ==> states[i].changedAt <= events[j].now
    decreases i
  {
    hide Critical, Safe, Strained, Healthy, InRange;
    if i > 0 {
      RunInRange(states, events, i - 1);
      Observation(states, events, i - 1);
      NextInRange(states[i-1], events[i-1]);
    }
  }

  lemma NextInRange(g: Governor, e: Event)
    requires InRange(g) && (e.Settings? ==> ValidConfig(e.config))
    ensures InRange(Next(g, e)) && (Next(g, e).changedAt == g.changedAt || Next(g, e).changedAt == e.now)
  {
    hide Critical, Safe, Strained, Healthy;
    match e
    case Read(sample, now) => UpdateInRange(g, sample, now);
    case Settings(config, now) => ReconfigureInRange(g, config, now);
  }

  /** Between two changes of settings the limit of an adaptive governor never outgrows one
      slot a cool-down, from any unpaused state. */
  lemma {:induction false} GrowthIsPaced(states: seq<Governor>, events: seq<Event>, i: nat, j: nat)
    requires Run(states, events) && i <= j <= |events|
    requires !states[i].paused && states[i].config.adaptive && forall m :: i <= m < j ==> events[m].Read?
    ensures states[j].changedAt >= states[i].changedAt && states[j].config == states[i].config
    ensures (states[j].limit - states[i].limit) as real * COOLDOWN <= states[j].changedAt - states[i].changedAt
    decreases j
  {
    hide Critical, Safe, Strained, Healthy;
    RunInRange(states, events, i);
    if i < j {
      GrowthIsPaced(states, events, i, j - 1);
      RunInRange(states, events, j - 1);
      Observation(states, events, j - 1);
      PacedStep(states[j-1], events[j-1].sample, events[j-1].now, states[i].limit, states[i].changedAt);
    }
  }

  lemma PacedStep(g: Governor, s: Sample, now: real, limit: int, since: real)
    requires InRange(g) && g.config.adaptive && g.changedAt <= now && since <= g.changedAt
    requires limit >= g.config.minimum
    requires (g.limit - limit) as real * COOLDOWN <= g.changedAt - since
    ensures var g' := Updated(g, s, now);
            g'.changedAt >= since && g'.config == g.config && (g'.limit - limit) as real * COOLDOWN <= g'.changedAt - since
  {
    hide Critical, Safe, Strained, Healthy;
    var g' := Updated(g, s, now);
    assert g'.limit <= g.limit || g'.limit <= limit || (g'.limit == g.limit + 1 && g'.changedAt - g.changedAt >= COOLDOWN);
    assert g'.changedAt >= g.changedAt;
  }

  // ---- a memory emergency -------------------------------------------------

  predicate Alarm(e: Event) {
    e.Read? && Critical(e.sample, e.now)
  }

  predicate Calm(e: Event) {
    e.Read? && Safe(e.sample, e.now)
  }

  /** The last alarm before state `i` was event `k`; the cool-down runs since no earlier than
      it and every later change of settings, and the last `healthy` events are safe samples. */
  ghost predicate EmergencySince(states: seq<Governor>, events: seq<Event>, i: nat, k: nat)
    requires i <= |events| && i < |states|
  {
    && k < i && Alarm(events[k]) && states[i].changedAt >= events[k].now
    && (forall j :: k < j < i ==> !Alarm(events[j]))
    && (forall j :: k < j < i && events[j].Settings? ==> states[i].changedAt >= events[j].now)
    && k + states[i].healthy < i
    && forall j :: i - states[i].healthy <= j < i ==> Calm(events[j])
  }

  lemma {:induction false} EmergencyHistory(states: seq<Governor>, events: seq<Event>, i: nat) returns (k: nat)
    requires Run(states, events) && i <= |events| && !states[0].paused && states[i].paused
    ensures EmergencySince(states, events, i, k)
    decreases i
  {
    Observation(states, events, i - 1);
    RunInRange(states, events, i - 1);
    var g, e := states[i-1], events[i-1];
    if Alarm(e) {
      k := i - 1;
    } else {
      PauseNeedsAlarm(g, e);
      k := EmergencyHistory(states, events, i - 1);
      hide Critical, Safe, Run, Next;
    }
  }

  lemma PauseNeedsAlarm(g: Governor, e: Event)
    requires Next(g, e).paused && !Alarm(e)
    ensures g.paused
    ensures e.Read? ==> Next(g, e).changedAt == g.changedAt && Next(g, e).healthy == if Calm(e) then g.healthy + 1 else 0
    ensures e.Settings? ==> Next(g, e).changedAt == e.now && Next(g, e).healthy == 0
  {
  }

  /** A pause lifts only on the third safe sample in a row, with no change of settings in
      between, and not before a cool-down has passed since the last alarm `k` and since every
      change of settings after it. */
  lemma PauseLifts(states: seq<Governor>, events: seq<Event>, i: nat) returns (k: nat)
    requires Run(states, events) && i < |events| && !states[0].paused
    requires states[i].paused && !states[i+1].paused
    ensures k + 3 <= i && Alarm(events[k]) && forall j :: k < j <= i ==> !Alarm(events[j])
    ensures forall j :: i - 2 <= j <= i ==> Calm(events[j])
    ensures events[i].now - events[k].now >= COOLDOWN
    ensures forall j :: k < j < i && events[j].Settings? ==> events[i].now - events[j].now >= COOLDOWN
  {
    k := EmergencyHistory(states, events, i);
    Observation(states, events, i);
    LiftNeedsCalm(states[i], events[i]);
    hide Critical, Safe, Run, Next;
  }

  lemma LiftNeedsCalm(g: Governor, e: Event)
    requires g.paused && !Next(g, e).paused
    ensures Calm(e) && !Alarm(e) && g.healthy >= 2 && e.now - g.changedAt >= COOLDOWN
  {
  }
}

module Capacities {
  import opened Settings
  import opened CapacityModel

  class AdaptiveCapacity {
    var config: Config
    var limit: int
    var healthy: nat
    var changedAt: real
    var memoryPaused: bool

    ghost function State(): Governor
      reads this
    {
      Governor(config, limit, healthy, changedAt, memoryPaused)
    }

    constructor (config: Config, now: real)
      requires ValidConfig(config)
      ensures State() == Governor(config, config.initial, 0, now, false) && InRange(State())
    {
      this.config, limit := config, config.initial;
      healthy, changedAt, memoryPaused := 0, now, false;
    }

    method Update(sample: Sample, now: real) returns (r: int)
      modifies this
      ensures State() == Updated(old(State()), sample, now) && r == limit
    {
      hide Critical, Safe, Strained, Healthy;
      if Critical(sample, now) {
        healthy, limit, memoryPaused, changedAt := 0, 0, true, now;
        return limit;
      }
      if memoryPaused {
        healthy := if Safe(sample, now) then healthy + 1 else 0;
        if healthy >= 3 && now - changedAt >= COOLDOWN {
          memoryPaused := false;
          limit := if config.adaptive then config.minimum else config.initial;
          changedAt, healthy := now, 0;
        }
        return limit;
      }
      if !config.adaptive {
        limit := config.initial;
        return limit;
      }
      if !Usable(sample, now) || sample.cpuBusy.None? {
        healthy := 0;
        limit := Min(limit, Max(config.minimum, Min(4, config.maximum)));
        changedAt := now;
        return limit;
      }
      if Strained(sample, now) {
        healthy := 0;
        limit := Max(config.minimum, limit - Max(1, limit / 4));
        changedAt := now;
        return limit;
      }
      healthy := if Healthy(sample, now) then healthy + 1 else 0;
      if healthy >= 3 && now - changedAt >= COOLDOWN {
        var ceiling := Max(config.minimum, sample.available.value / (512 * MIB));
        limit := Min(config.maximum, Min(ceiling, Max(config.minimum, limit + 1)));
        changedAt, healthy := now, 0;
      }
      return limit;
    }

    /** New settings keep an emergency and otherwise clamp the limit. */
    method Reconfigure(config: Config, now: real)
      modifies this
      ensures State() == Reconfigured(old(State()), config, now)
    {
      this.config := config;
      limit := if memoryPaused then 0
               else if !config.adaptive then config.initial
               else Max(config.minimum, Min(limit, config.maximum));
      healthy, changedAt := 0, now;
    }
  }
}
