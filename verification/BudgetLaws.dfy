/**
 What an Add answers, over every run of the fleet: the shared counter and an instance on its own
 both admit first come, first served what still fits; and the calendar behind the windows.
 */
module BudgetLaws {
  import opened Wrappers
  import opened Budget

  // ---- the calendar ----

  /** Days from 1970-01-01 to the first day of a year, counting leap days. */
  function YearStart(y: int): int { 365 * (y - 1970) + (y - 1969) / 4 - (y - 1901) / 100 + (y - 1601) / 400 }

  const DAYS_BEFORE := [0, 31, 59, 90, 120, 151, 181, 212, 243, 273, 304, 334, 365]

  lemma LeapDays(y: int)
    ensures (y - 1968) / 4 == (y - 1969) / 4 + if y % 4 == 0 then 1 else 0
  {
  }

  lemma CenturyDays(y: int)
    ensures (y - 1900) / 100 == (y - 1901) / 100 + if y % 100 == 0 then 1 else 0
  {
  }

  lemma CycleDays(y: int)
    ensures (y - 1600) / 400 == (y - 1601) / 400 + if y % 400 == 0 then 1 else 0
  {
  }

  lemma CenturiesAreFourths(y: int)
    ensures y % 100 == 0 ==> y % 4 == 0
    ensures y % 400 == 0 ==> y % 100 == 0
  {
  }

  lemma YearLength(y: int)
    ensures YearStart(y + 1) == YearStart(y) + if Leap(y) then 366 else 365
  {
    LeapDays(y);
    CenturyDays(y);
    CycleDays(y);
    CenturiesAreFourths(y);
    assert (y + 1) - 1969 == y - 1968 && (y + 1) - 1901 == y - 1900 && (y + 1) - 1601 == y - 1600;
  }

  /** The months of a year, from its start. */
  lemma {:induction false} MonthInYear(y: int, m: nat)
    requires m <= 12
    ensures MonthStart(12 * (y - 1970) + m) == MonthStart(12 * (y - 1970)) + DAYS_BEFORE[m] +
            if m >= 2 && Leap(y) then 1 else 0
  {
    if m > 0 {
      MonthInYear(y, m - 1);
      var i := 12 * (y - 1970) + m - 1;
      MonthLength(i);
      assert i / 12 == y - 1970 && i % 12 == m - 1;
    }
  }

  lemma {:induction false} YearStartIs(y: int)
    ensures MonthStart(12 * (y - 1970)) == YearStart(y)
    decreases if y < 1970 then 1970 - y else y - 1970
  {
    if y == 1970 {
      assert YearStart(1970) == 0;
    } else if y > 1970 {
      YearStartIs(y - 1);
      YearLength(y - 1);
      MonthInYear(y - 1, 12);
    } else {
      YearStartIs(y + 1);
      YearLength(y);
      MonthInYear(y, 12);
    }
  }

  /** The first day of every month of every year is the Gregorian one. */
  lemma MonthStartIs(y: int, m: nat)
    requires m < 12
    ensures MonthStart(12 * (y - 1970) + m) ==
            365 * (y - 1970) + (y - 1969) / 4 - (y - 1901) / 100 + (y - 1601) / 400 +
            [0, 31, 59, 90, 120, 151, 181, 212, 243, 273, 304, 334][m] +
            if m >= 2 && y % 4 == 0 && (y % 100 != 0 || y % 400 == 0) then 1 else 0
  {
    YearStartIs(y);
    MonthInYear(y, m);
  }

  // ---- the shared counter ----

  /** First come, first served: what the scripts that ran take of a window's limit. */
  function Served(cfg: Config, events: seq<Event>, w: int): nat
  {
    if events == [] then 0
    else
      var taken, e := Served(cfg, events[..|events| - 1], w), events[|events| - 1];
      if WindowOf(cfg, e) == w && !e.redis.Unreached? && taken + e.n <= cfg.limit then taken + e.n else taken
  }

  /** What the script reads, before it decides. */
  lemma ScriptReads(cfg: Config, events: seq<Event>, e: Event, skew: int)
    requires cfg.limit > 0 && 2 * skew <= HOUR - SECOND && ClocksAgree(events, skew) && -skew <= e.at - e.now <= skew
    ensures SharedUsed(cfg, Run(cfg, events), e) == ScriptUnits(cfg, events, WindowOf(cfg, e))
  {
    var w := WindowOf(cfg, e);
    RunKeepsCounter(cfg, events, skew, w);
    ExpiryOutlivesWindow(cfg.period, e.now, e.at, skew);
    assert CounterInv(cfg, CounterOf(Run(cfg, events), w), ScriptUnits(cfg, events, w), skew, w);
  }

  lemma {:induction false} UnitsAreServed(cfg: Config, events: seq<Event>, skew: int, w: int)
    requires cfg.limit > 0 && 2 * skew <= HOUR - SECOND && ClocksAgree(events, skew)
    ensures ScriptUnits(cfg, events, w) == Served(cfg, events, w)
  {
    if events != [] {
      var init, e := events[..|events| - 1], events[|events| - 1];
      UnitsAreServed(cfg, init, skew, w);
      ScriptUnitsStep(cfg, events, w);
      ScriptReads(cfg, init, e, skew);
    }
  }

  /** Over every run with clocks within the slack, outages and lost replies included: an Add that
      Redis answers is admitted exactly when its units fit into what the scripts before it, first
      come, first served, left of the window. */
  lemma AnsweredAddExact(cfg: Config, events: seq<Event>, e: Event, skew: int)
    requires cfg.limit > 0 && 2 * skew <= HOUR - SECOND && ClocksAgree(events, skew) && -skew <= e.at - e.now <= skew
    requires e.redis.Answered?
    ensures Admitted(cfg, Run(cfg, events), e) <==>
            Served(cfg, events, Window(cfg.period, e.now)) + e.n <= cfg.limit
    ensures Resets(cfg, Run(cfg, events), e) == WindowStart(cfg.period, Window(cfg.period, e.now) + 1)
  {
    ScriptReads(cfg, events, e, skew);
    UnitsAreServed(cfg, events, skew, WindowOf(cfg, e));
  }

  /** While Redis answers, an Add is admitted exactly when the units admitted in its window so
      far leave room for it. */
  lemma HealthyAddExact(cfg: Config, events: seq<Event>, e: Event, skew: int)
    requires cfg.limit > 0 && 2 * skew <= HOUR - SECOND && ClocksAgree(events, skew) && -skew <= e.at - e.now <= skew
    requires AllAnswered(events) && e.redis.Answered?
    ensures Admitted(cfg, Run(cfg, events), e) <==>
            Admissions(cfg, events, Window(cfg.period, e.now)) + e.n <= cfg.limit
  {
    var w := WindowOf(cfg, e);
    ScriptReads(cfg, events, e, skew);
    AnsweredAreShared(cfg, events, w);
    NoneLost(cfg, events, w);
  }

  lemma {:induction false} NoneLost(cfg: Config, events: seq<Event>, w: int)
    requires AllAnswered(events)
    ensures SharedUnits(cfg, events, w, ReplyLost) == 0
  {
    if events != [] { NoneLost(cfg, events[..|events| - 1], w); }
  }

  // ---- an instance on its own ----

  predicate DecidesAlone(e: Event, instance: nat) { e.instance == instance && !e.redis.Answered? }

  /** The latest reset among those of the windows an instance's own clock readings fell in. */
  function LatestReset(cfg: Config, events: seq<Event>, instance: nat): Option<int>
  {
    if events == [] then None
    else
      var latest, e := LatestReset(cfg, events[..|events| - 1], instance), events[|events| - 1];
      if !DecidesAlone(e, instance) then latest else Some(Later(latest, Next(cfg.period, e.again)))
  }

  function Later(a: Option<int>, b: int): int { if a.Some? && a.value > b then a.value else b }

  /** First come, first served since that reset became the latest. */
  function ServedAlone(cfg: Config, events: seq<Event>, instance: nat): nat
    decreases |events|, 0
  {
    if events == [] then 0
    else
      var init, e := events[..|events| - 1], events[|events| - 1];
      if !DecidesAlone(e, instance) then ServedAlone(cfg, init, instance)
      else
        var taken := TakenAlone(cfg, init, e);
        if taken + e.n <= cfg.limit then taken + e.n else taken
  }

  /** What an instance has taken of its limit when this Add of its own comes. */
  function TakenAlone(cfg: Config, events: seq<Event>, e: Event): nat
    decreases |events|, 1
  {
    var latest := LatestReset(cfg, events, e.instance);
    if latest.Some? && Next(cfg.period, e.again) <= latest.value then ServedAlone(cfg, events, e.instance) else 0
  }

  lemma {:induction false} LatestIsReset(cfg: Config, events: seq<Event>, instance: nat) returns (t: int)
    requires LatestReset(cfg, events, instance).Some?
    ensures LatestReset(cfg, events, instance).value == Next(cfg.period, t)
  {
    var init, e := events[..|events| - 1], events[|events| - 1];
    if DecidesAlone(e, instance) && LatestReset(cfg, events, instance).value == Next(cfg.period, e.again) {
      t := e.again;
    } else {
      t := LatestIsReset(cfg, init, instance);
    }
  }

  /** The window has not ended exactly when the reading's own reset is not later. */
  lemma NotEndedIs(p: Period, t: int, now: int)
    ensures now < Next(p, t) <==> Next(p, now) <= Next(p, t)
  {
    if t <= now {
      WindowMonotone(p, t, now);
      WindowStartsOrdered(p, Window(p, t) + 1, Window(p, now) + 1);
      if now >= Next(p, t) { WindowStartsIncrease(p, Window(p, t) + 1, Window(p, now) + 1); }
    } else {
      WindowMonotone(p, now, t);
      WindowStartsOrdered(p, Window(p, now) + 1, Window(p, t) + 1);
    }
  }

  /** An instance's counter, whatever Redis does and whatever its clock reads. */
  lemma {:induction false} CounterIsServedAlone(cfg: Config, events: seq<Event>, instance: nat)
    ensures Local(Run(cfg, events), instance) ==
            Mem(LatestReset(cfg, events, instance), ServedAlone(cfg, events, instance))
  {
    if events != [] {
      var init, e := events[..|events| - 1], events[|events| - 1];
      CounterIsServedAlone(cfg, init, instance);
      StepLocal(cfg, Run(cfg, init), e, instance);
      if DecidesAlone(e, instance) { RolledIs(cfg, init, e); }
    }
  }

  lemma RolledIs(cfg: Config, events: seq<Event>, e: Event)
    requires Local(Run(cfg, events), e.instance) ==
             Mem(LatestReset(cfg, events, e.instance), ServedAlone(cfg, events, e.instance))
    ensures var latest := LatestReset(cfg, events, e.instance);
            Rolled(cfg.period, Local(Run(cfg, events), e.instance), e.again) ==
            Mem(Some(Later(latest, Next(cfg.period, e.again))), TakenAlone(cfg, events, e))
  {
    if LatestReset(cfg, events, e.instance).Some? {
      var t := LatestIsReset(cfg, events, e.instance);
      NotEndedIs(cfg.period, t, e.again);
    }
  }

  /** Over every run, whatever Redis and the clocks do: an Add decided alone is admitted exactly
      when its units fit into what the instance's own Adds left since its latest reset, and it
      reports that reset. */
  lemma FallbackAddExact(cfg: Config, events: seq<Event>, e: Event)
    requires !e.redis.Answered?
    ensures Admitted(cfg, Run(cfg, events), e) <==> TakenAlone(cfg, events, e) + e.n <= cfg.limit
    ensures Resets(cfg, Run(cfg, events), e) ==
            Later(LatestReset(cfg, events, e.instance), Next(cfg.period, e.again))
  {
    CounterIsServedAlone(cfg, events, e.instance);
    RolledIs(cfg, events, e);
  }

  // ---- the source's form ----

  /** The shared budget as one instance uses it: the counters in Redis, and its own fallback. */
  class RedisBudget {
    const period: Period
    const limit: int
    const fallback: MemBudget
    var counters: map<int, Counter>

    constructor (period: Period, limit: int)
      requires limit > 0
      ensures Valid() && this.period == period && this.limit == limit && fresh(fallback)
      ensures Shown() == Fleet(map[], map[0 := Mem(None, 0)])
    {
      var b := new MemBudget(period, limit);
      this.period, this.limit, fallback, counters := period, limit, b, map[];
    }

    ghost predicate Valid() { limit > 0 && fallback.period == period && fallback.limit == limit }

    ghost function Shown(): Fleet
      reads this, fallback
    {
      Fleet(counters, map[0 := fallback.State()])
    }

    function Cfg(): Config { Config(period, limit, 1) }

    /** budgetAddScript: GET, compare, INCRBY, and EXPIRE for the first units. */
    method RunScript(n: nat, now: int, at: int) returns (allowed: bool, used: int)
      modifies this`counters
      ensures var e := Event(0, n, now, now, at, Answered);
              && Shown() == AfterScript(Cfg(), old(Shown()), e) && allowed == ScriptAdmits(Cfg(), old(Shown()), e)
              && used == SharedUsed(Cfg(), old(Shown()), e) + if allowed then n else 0
    {
      var key := Window(period, now);
      used := 0;
      if key in counters && at < counters[key].expires { used := counters[key].used; }
      if used + n > limit { return false, used; }
      used := used + n;
      if used == n {
        counters := counters[key := Counter(used, at + TtlSeconds(period, now) * SECOND)];
      } else {
        counters := counters[key := Counter(used, counters[key].expires)];
      }
      allowed := true;
    }

    /** Add: the script, or when it does not answer the fallback, marked as degraded. */
    method Add(n: nat, now: int, again: int, at: int, redis: Redis) returns (r: Verdict)
      requires Valid()
      modifies this`counters, fallback
      ensures var e := Event(0, n, now, again, at, redis);
              && Shown() == Step(Cfg(), old(Shown()), e)
              && r.allowed == Admitted(Cfg(), old(Shown()), e)
              && r.resets == Some(Resets(Cfg(), old(Shown()), e))
              && r.limit == limit && r.degraded == !redis.Answered?
    {
      var allowed, used := false, 0;
      if !redis.Unreached? { allowed, used := RunScript(n, now, at); }
      if !redis.Answered? {
        r := fallback.Add(n, again);
        r := r.(degraded := true, limit := limit);
        return;
      }
      return Verdict(allowed, used, limit, Some(Next(period, now)), false);
    }
  }
}
