/**
 Calendar-aligned budgets: the in-process one, and the fleet-wide one that checks and adds
 atomically in Redis and falls back to the in-process one when Redis does not answer.
 Instants are nanoseconds since 1970-01-01T00:00Z.
 */
module Budget {
  import opened Wrappers

  const SECOND := 1_000_000_000
  const HOUR := 3600 * SECOND
  const DAY := 24 * HOUR

  datatype Period = Hour | Day | Month

  // ---- the calendar (proleptic Gregorian, UTC) ----

  predicate Leap(y: int) { y % 4 == 0 && (y % 100 != 0 || y % 400 == 0) }

  /** Length of the month that comes i months after January 1970. */
  function MonthDays(i: int): (d: int)
    ensures 28 <= d <= 31
  {
    var m := i % 12;
    if m == 1 then (if Leap(1970 + i / 12) then 29 else 28)
    else if m == 3 || m == 5 || m == 8 || m == 10 then 30
    else 31
  }

  /** Days from 1970-01-01 to the first day of that month. */
  function MonthStart(i: int): int
    decreases if i < 0 then -i else i
  {
    if i == 0 then 0
    else if i > 0 then MonthStart(i - 1) + MonthDays(i - 1)
    else MonthStart(i + 1) - MonthDays(i)
  }

  lemma MonthLength(i: int)
    ensures MonthStart(i + 1) == MonthStart(i) + MonthDays(i)
  {
  }

  function MonthUp(i: int, day: int): (r: int)
    requires MonthStart(i) <= day
    ensures MonthStart(r) <= day < MonthStart(r + 1)
    decreases day - MonthStart(i)
  {
    MonthLength(i);
    if day < MonthStart(i + 1) then i else MonthUp(i + 1, day)
  }

  function MonthDown(i: int, day: int): (r: int)
    requires day < MonthStart(i + 1)
    ensures MonthStart(r) <= day < MonthStart(r + 1)
    decreases MonthStart(i + 1) - day
  {
    MonthLength(i);
    if MonthStart(i) <= day then i else MonthDown(i - 1, day)
  }

  /** Where window i of a period begins. */
  function WindowStart(p: Period, i: int): int
  {
    match p
    case Hour => i * HOUR
    case Day => i * DAY
    case Month => MonthStart(i) * DAY
  }

  function Floor(t: int, unit: int): (q: int)
    requires unit > 0
    ensures q * unit <= t < (q + 1) * unit
  {
    t / unit
  }

  function MonthOf(day: int): (r: int)
    ensures MonthStart(r) <= day < MonthStart(r + 1)
  {
    if day >= 0 then MonthUp(0, day) else MonthDown(-1, day)
  }

  lemma Scaled(a: int, b: int, unit: int)
    requires a <= b && unit > 0
    ensures a * unit <= b * unit
  {
  }

  /** Period.key: which window an instant is in. */
  function Window(p: Period, t: int): (i: int)
    ensures WindowStart(p, i) <= t < WindowStart(p, i + 1)
  {
    match p
    case Hour => Floor(t, HOUR)
    case Day => Floor(t, DAY)
    case Month =>
      var day := Floor(t, DAY);
      var i := MonthOf(day);
      Scaled(MonthStart(i), day, DAY);
      Scaled(day + 1, MonthStart(i + 1), DAY);
      i
  }

  /** Period.next: when that window resets. */
  function Next(p: Period, t: int): int { WindowStart(p, Window(p, t) + 1) }

  lemma {:induction false} MonthsIncrease(i: int, j: int)
    requires i < j
    ensures MonthStart(i) < MonthStart(j)
    decreases j - i
  {
    MonthLength(j - 1);
    if i < j - 1 { MonthsIncrease(i, j - 1); }
  }

  lemma WindowStartsOrdered(p: Period, i: int, j: int)
    requires i <= j
    ensures WindowStart(p, i) <= WindowStart(p, j)
  {
    if p.Month? && i < j { MonthsIncrease(i, j); }
  }

  /** Windows partition time: an instant between two neighbouring starts is in that window. */
  lemma WindowIs(p: Period, t: int, i: int)
    ensures Window(p, t) == i <==> WindowStart(p, i) <= t < WindowStart(p, i + 1)
  {
    var w := Window(p, t);
    if i < w { WindowStartsOrdered(p, i + 1, w); }
    if w < i { WindowStartsOrdered(p, w + 1, i); }
  }

  lemma WindowMonotone(p: Period, t: int, u: int)
    requires t <= u
    ensures Window(p, t) <= Window(p, u)
    ensures Window(p, t) == Window(p, u) <==> u < Next(p, t)
  {
    var w, v := Window(p, t), Window(p, u);
    WindowIs(p, u, w);
    if v < w { WindowStartsOrdered(p, v + 1, w); }
  }

  // ---- one instance ----

  datatype Mem = Mem(windowEnd: Option<int>, used: int)

  function Rolled(p: Period, m: Mem, now: int): Mem
  {
    if m.windowEnd.None? || now >= m.windowEnd.value then Mem(Some(Next(p, now)), 0) else m
  }

  predicate Fits(p: Period, limit: int, m: Mem, n: int, now: int) { Rolled(p, m, now).used + n <= limit }

  function Charged(p: Period, limit: int, m: Mem, n: int, now: int): Mem
  {
    var r := Rolled(p, m, now);
    if Fits(p, limit, m, n, now) then r.(used := r.used + n) else r
  }

  datatype Verdict = Verdict(allowed: bool, used: int, limit: int, resets: Option<int>, degraded: bool)

  class MemBudget {
    const period: Period
    const limit: int
    var windowEnd: Option<int>
    var used: int

    ghost function State(): Mem
      reads this
    {
      Mem(windowEnd, used)
    }

    constructor (period: Period, limit: int)
      requires limit > 0
      ensures this.period == period && this.limit == limit && State() == Mem(None, 0)
    {
      this.period, this.limit, windowEnd, used := period, limit, None, 0;
    }

    method Roll(now: int)
      modifies this
      ensures State() == Rolled(period, old(State()), now)
    {
      if windowEnd.None? || now >= windowEnd.value {
        windowEnd, used := Some(Next(period, now)), 0;
      }
    }

    /** A refused Add leaves the consumption of the window as it was. */
    method Add(n: int, now: int) returns (r: Verdict)
      modifies this
      ensures State() == Charged(period, limit, old(State()), n, now)
      ensures r.allowed <==> Fits(period, limit, old(State()), n, now)
      ensures r.used == used && r.limit == limit && r.resets == windowEnd && !r.degraded
      ensures !r.allowed ==> State() == Rolled(period, old(State()), now)
    {
      Roll(now);
      if used + n > limit { return Verdict(false, used, limit, windowEnd, false); }
      used := used + n;
      return Verdict(true, used, limit, windowEnd, false);
    }

    method Used(now: int) returns (r: Verdict)
      modifies this
      ensures State() == Rolled(period, old(State()), now)
      ensures r == Verdict(used < limit, used, limit, windowEnd, false)
    {
      Roll(now);
      return Verdict(used < limit, used, limit, windowEnd, false);
    }
  }

  function PeriodOf(name: string): Period
  {
    if name == "hour" then Hour else if name == "day" then Day else Month
  }

  /** newMemBudget: no counter, that is an unlimited budget, for a limit that is not positive;
      an unknown period is a month. */
  method NewMemBudget(period: string, limit: int) returns (b: MemBudget?)
    ensures b == null <==> limit <= 0
    ensures b != null ==> fresh(b) && b.limit == limit && b.State() == Mem(None, 0)
    ensures b != null ==> (b.period == Hour <==> period == "hour") && (b.period == Day <==> period == "day")
  {
    if limit <= 0 { return null; }
    b := new MemBudget(PeriodOf(period), limit);
  }

  const UNLIMITED := Verdict(true, 0, 0, None, false)

  /** Add on whatever newMemBudget returned: without a counter everything is admitted. */
  method AddTo(b: MemBudget?, n: int, now: int) returns (r: Verdict)
    modifies b
    ensures b == null ==> r == UNLIMITED
    ensures b != null ==> b.State() == Charged(b.period, b.limit, old(b.State()), n, now)
    ensures b != null ==> (r.allowed <==> Fits(b.period, b.limit, old(b.State()), n, now)) && r.limit == b.limit
  {
    if b == null { return UNLIMITED; }
    r := b.Add(n, now);
  }

  // ---- the fleet ----

  /** The counter of one window in Redis. */
  datatype Counter = Counter(used: int, expires: int)

  /** What an instance sees of its script run: an answer; nothing, the script never ran; or
      nothing although the script ran. */
  datatype Redis = Answered | Unreached | ReplyLost

  /** One Add: by an instance, of n units, at instant now on its clock and `at` on Redis's; its
      fallback, if it comes to that, reads the clock again. */
  datatype Event = Event(instance: nat, n: nat, now: int, again: int, at: int, redis: Redis)

  datatype Config = Config(period: Period, limit: int, instances: nat)

  datatype Fleet = Fleet(shared: map<int, Counter>, locals: map<nat, Mem>)

  const IDLE := Fleet(map[], map[])

  function WindowOf(cfg: Config, e: Event): int { Window(cfg.period, e.now) }

  /** Period.ttl, in whole seconds as EXPIRE takes it. */
  function TtlSeconds(p: Period, now: int): int { (Next(p, now) - now + HOUR) / SECOND }

  /** GET inside the script: an expired counter reads as 0. */
  function SharedUsed(cfg: Config, f: Fleet, e: Event): int
  {
    var w := WindowOf(cfg, e);
    if w in f.shared && e.at < f.shared[w].expires then f.shared[w].used else 0
  }

  predicate ScriptAdmits(cfg: Config, f: Fleet, e: Event) { SharedUsed(cfg, f, e) + e.n <= cfg.limit }

  /** budgetAddScript, one atomic unit. */
  function AfterScript(cfg: Config, f: Fleet, e: Event): Fleet
  {
    if !ScriptAdmits(cfg, f, e) then f
    else
      var w := WindowOf(cfg, e);
      var used := SharedUsed(cfg, f, e) + e.n;
      var expires := if used == e.n then e.at + TtlSeconds(cfg.period, e.now) * SECOND
                     else f.shared[w].expires;
      f.(shared := f.shared[w := Counter(used, expires)])
  }

  function Local(f: Fleet, instance: nat): Mem
  {
    if instance in f.locals then f.locals[instance] else Mem(None, 0)
  }

  predicate FallbackAdmits(cfg: Config, f: Fleet, e: Event)
  {
    Fits(cfg.period, cfg.limit, Local(f, e.instance), e.n, e.again)
  }

  function AfterFallback(cfg: Config, f: Fleet, e: Event): Fleet
  {
    f.(locals := f.locals[e.instance := Charged(cfg.period, cfg.limit, Local(f, e.instance), e.n, e.again)])
  }

  predicate Admitted(cfg: Config, f: Fleet, e: Event)
  {
    if e.redis.Answered? then ScriptAdmits(cfg, f, e) else FallbackAdmits(cfg, f, e)
  }

  /** redisBudget.Add. */
  function Step(cfg: Config, f: Fleet, e: Event): Fleet
  {
    match e.redis
    case Answered => AfterScript(cfg, f, e)
    case Unreached => AfterFallback(cfg, f, e)
    case ReplyLost => AfterFallback(cfg, AfterScript(cfg, f, e), e)
  }

  function Run(cfg: Config, events: seq<Event>): Fleet
  {
    if events == [] then IDLE else Step(cfg, Run(cfg, events[..|events| - 1]), events[|events| - 1])
  }

  /** The reset instant an Add reports: the end of the window whose counter it is put to. */
  function Resets(cfg: Config, f: Fleet, e: Event): int
  {
    if e.redis.Answered? then Next(cfg.period, e.now)
    else Rolled(cfg.period, Local(f, e.instance), e.again).windowEnd.value
  }

  /** The clock reading an Add is decided by. */
  function Reading(e: Event): int { if e.redis.Answered? then e.now else e.again }

  // ---- units ----

  /** Units admitted by Adds whose reading falls in window w. */
  function Admissions(cfg: Config, events: seq<Event>, w: int): nat
  {
    if events == [] then 0
    else
      var init, e := events[..|events| - 1], events[|events| - 1];
      Admissions(cfg, init, w) +
      if Window(cfg.period, Reading(e)) == w && Admitted(cfg, Run(cfg, init), e) then e.n else 0
  }

  /** Units admitted by Adds that reported the reset instant end. */
  function AdmittedUntil(cfg: Config, events: seq<Event>, end: int): nat
  {
    if events == [] then 0
    else
      var init, e := events[..|events| - 1], events[|events| - 1];
      var f := Run(cfg, init);
      AdmittedUntil(cfg, init, end) + if Resets(cfg, f, e) == end && Admitted(cfg, f, e) then e.n else 0
  }

  /** Units charged to the shared counter by scripts that ended like this for their caller. */
  function SharedUnits(cfg: Config, events: seq<Event>, w: int, how: Redis): nat
  {
    if events == [] then 0
    else
      var init, e := events[..|events| - 1], events[|events| - 1];
      SharedUnits(cfg, init, w, how) +
      if WindowOf(cfg, e) == w && e.redis == how && ScriptAdmits(cfg, Run(cfg, init), e) then e.n else 0
  }

  predicate ChargesLocally(cfg: Config, f: Fleet, e: Event, end: int)
  {
    !e.redis.Answered? && FallbackAdmits(cfg, f, e) && Resets(cfg, f, e) == end
  }

  /** Units an instance admitted on its own until a reset instant. */
  function LocalUnits(cfg: Config, events: seq<Event>, instance: nat, end: int): nat
  {
    if events == [] then 0
    else
      var init, e := events[..|events| - 1], events[|events| - 1];
      LocalUnits(cfg, init, instance, end) +
      if e.instance == instance && ChargesLocally(cfg, Run(cfg, init), e, end) then e.n else 0
  }

  function AllLocalUnits(cfg: Config, events: seq<Event>, instances: nat, end: int): nat
  {
    if instances == 0 then 0
    else AllLocalUnits(cfg, events, instances - 1, end) + LocalUnits(cfg, events, instances - 1, end)
  }

  // ---- the shared counter ----

  /** Clocks: Redis and an instance differ by at most skew, request delay included. */
  ghost predicate ClocksAgree(events: seq<Event>, skew: int)
  {
    forall i :: 0 <= i < |events| ==> -skew <= events[i].at - events[i].now <= skew
  }

  function CounterOf(f: Fleet, w: int): Option<Counter> { if w in f.shared then Some(f.shared[w]) else None }

  /** The counter of window w holds exactly the units charged, within the limit, and its expiry
      is past every instant at which the window can still be addressed. */
  ghost predicate CounterInv(cfg: Config, c: Option<Counter>, units: int, skew: int, w: int)
  {
    && (c.None? ==> units == 0)
    && (c.Some? ==> c.value.used == units <= cfg.limit)
    && (c.Some? ==> c.value.expires >= WindowStart(cfg.period, w + 1) + skew)
  }

  lemma ExpiryOutlivesWindow(p: Period, now: int, at: int, skew: int)
    requires -skew <= at - now <= skew && 2 * skew <= HOUR - SECOND
    ensures Outlives(p, now, at, skew)
    ensures at < Next(p, now) + skew
  {
  }

  lemma ScriptLeavesOthers(cfg: Config, f: Fleet, e: Event, w: int)
    requires WindowOf(cfg, e) != w
    ensures CounterOf(AfterScript(cfg, f, e), w) == CounterOf(f, w)
  {
  }

  lemma ScriptKeepsCounter(cfg: Config, f: Fleet, e: Event, skew: int, units: int)
    requires cfg.limit > 0 && 2 * skew <= HOUR - SECOND && -skew <= e.at - e.now <= skew
    requires CounterInv(cfg, CounterOf(f, WindowOf(cfg, e)), units, skew, WindowOf(cfg, e))
    ensures CounterInv(cfg, CounterOf(AfterScript(cfg, f, e), WindowOf(cfg, e)),
                       units + if ScriptAdmits(cfg, f, e) then e.n else 0, skew, WindowOf(cfg, e))
  {
    ExpiryOutlivesWindow(cfg.period, e.now, e.at, skew);
    assert SharedUsed(cfg, f, e) == units;
  }

  function ScriptUnits(cfg: Config, events: seq<Event>, w: int): nat
  {
    SharedUnits(cfg, events, w, Answered) + SharedUnits(cfg, events, w, ReplyLost)
  }

  lemma ScriptUnitsStep(cfg: Config, events: seq<Event>, w: int)
    requires events != []
    ensures var init, e := events[..|events| - 1], events[|events| - 1];
            ScriptUnits(cfg, events, w) == ScriptUnits(cfg, init, w) +
            if WindowOf(cfg, e) == w && !e.redis.Unreached? && ScriptAdmits(cfg, Run(cfg, init), e) then e.n else 0
  {
  }

  lemma StepCounter(cfg: Config, f: Fleet, e: Event, w: int)
    ensures CounterOf(Step(cfg, f, e), w) ==
            if e.redis.Unreached? then CounterOf(f, w) else CounterOf(AfterScript(cfg, f, e), w)
  {
  }

  lemma {:induction false} RunKeepsCounter(cfg: Config, events: seq<Event>, skew: int, w: int)
    requires cfg.limit > 0 && 2 * skew <= HOUR - SECOND && ClocksAgree(events, skew)
    ensures CounterInv(cfg, CounterOf(Run(cfg, events), w), ScriptUnits(cfg, events, w), skew, w)
  {
    if events != [] {
      var init, e := events[..|events| - 1], events[|events| - 1];
      var f := Run(cfg, init);
      RunKeepsCounter(cfg, init, skew, w);
      ScriptUnitsStep(cfg, events, w);
      StepCounter(cfg, f, e, w);
      if WindowOf(cfg, e) == w {
        ScriptKeepsCounter(cfg, f, e, skew, ScriptUnits(cfg, init, w));
      } else {
        ScriptLeavesOthers(cfg, f, e, w);
      }
    }
  }

  /** For every interleaving of Adds, with outages and lost replies anywhere and clocks within
      half an hour of each other: the shared counter of a window never exceeds the limit and
      equals the units it admitted plus those whose reply was lost. */
  lemma SharedCounterIsExact(cfg: Config, events: seq<Event>, skew: int, w: int)
    requires cfg.limit > 0 && 2 * skew <= HOUR - SECOND && ClocksAgree(events, skew)
    ensures var shared := Run(cfg, events).shared;
            var used := if w in shared then shared[w].used else 0;
            && used == SharedUnits(cfg, events, w, Answered) + SharedUnits(cfg, events, w, ReplyLost)
            && used <= cfg.limit
  {
    RunKeepsCounter(cfg, events, skew, w);
  }

  ghost predicate AllAnswered(events: seq<Event>) { forall i :: 0 <= i < |events| ==> events[i].redis.Answered? }

  lemma {:induction false} AnsweredAreShared(cfg: Config, events: seq<Event>, w: int)
    requires AllAnswered(events)
    ensures Admissions(cfg, events, w) == SharedUnits(cfg, events, w, Answered)
  {
    if events != [] { AnsweredAreShared(cfg, events[..|events| - 1], w); }
  }

  /** While Redis answers, the whole fleet stays within one limit. */
  lemma HealthyFleetBound(cfg: Config, events: seq<Event>, skew: int, w: int)
    requires cfg.limit > 0 && 2 * skew <= HOUR - SECOND && ClocksAgree(events, skew) && AllAnswered(events)
    ensures Admissions(cfg, events, w) <= cfg.limit
  {
    AnsweredAreShared(cfg, events, w);
    SharedCounterIsExact(cfg, events, skew, w);
  }

  // ---- how far apart clocks may be ----

  /** A counter started at this instant is still there when its window is last addressed. */
  predicate Outlives(p: Period, now: int, at: int, skew: int)
  {
    at + TtlSeconds(p, now) * SECOND >= Next(p, now) + skew
  }

  ghost predicate AlwaysOutlives(p: Period, skew: int)
  {
    forall now, at :: -skew <= at - now <= skew ==> Outlives(p, now, at, skew)
  }

  /** Length of the first window of 1970. */
  function FirstWindow(p: Period): int { WindowStart(p, 1) }

  lemma FirstWindowIs(p: Period)
    ensures FirstWindow(p) == match p case Hour => HOUR case Day => DAY case Month => 31 * DAY
    ensures FirstWindow(p) % SECOND == 0
    ensures Window(p, 1) == 0 && Window(p, FirstWindow(p) - 1) == 0
    ensures TtlSeconds(p, 1) * SECOND == FirstWindow(p) + HOUR - SECOND
  {
    assert MonthStart(1) == MonthStart(0) + MonthDays(0);
    WindowIs(p, 1, 0);
    WindowIs(p, FirstWindow(p) - 1, 0);
  }

  /** The slack of one hour, less the truncation to seconds, is exactly what two clocks that
      both differ from Redis's may use up. */
  lemma ExpirySlackExact(p: Period, skew: int)
    requires skew >= 0
    ensures AlwaysOutlives(p, skew) <==> 2 * skew <= HOUR - SECOND
  {
    if 2 * skew <= HOUR - SECOND {
      forall now, at | -skew <= at - now <= skew ensures Outlives(p, now, at, skew) {
        ExpiryOutlivesWindow(p, now, at, skew);
      }
    } else {
      FirstWindowIs(p);
      assert !Outlives(p, 1, 1 - skew, skew);
    }
  }

  /** However the fleet's Adds interleave, no window admits more than the limit. */
  ghost predicate AlwaysWithinLimit(cfg: Config, skew: int)
  {
    forall events, w ::
      ClocksAgree(events, skew) && AllAnswered(events) ==> Admissions(cfg, events, w) <= cfg.limit
  }

  lemma RunSnoc(cfg: Config, events: seq<Event>, e: Event, w: int)
    ensures Run(cfg, events + [e]) == Step(cfg, Run(cfg, events), e)
    ensures Admissions(cfg, events + [e], w) == Admissions(cfg, events, w) +
            if Window(cfg.period, Reading(e)) == w && Admitted(cfg, Run(cfg, events), e) then e.n else 0
  {
    assert (events + [e])[..|events|] == events;
  }

  /** The whole limit, early in the first window by a slow clock of Redis. */
  function EarlyAdd(cfg: Config, skew: int): Event
    requires cfg.limit >= 0
  {
    Event(0, cfg.limit, 1, 1, 1 - skew, Answered)
  }

  /** The whole limit again, at the end of that window by a fast one. */
  function LateAdd(cfg: Config, skew: int): Event
    requires cfg.limit >= 0
  {
    var last := FirstWindow(cfg.period) - 1;
    Event(1, cfg.limit, last, last, last + skew, Answered)
  }

  lemma EarlyCounterExpires(cfg: Config, skew: int)
    requires cfg.limit > 0 && 2 * skew > HOUR - SECOND
    ensures var f := AfterScript(cfg, IDLE, EarlyAdd(cfg, skew));
            SharedUsed(cfg, IDLE, EarlyAdd(cfg, skew)) == 0 && SharedUsed(cfg, f, LateAdd(cfg, skew)) == 0
  {
    FirstWindowIs(cfg.period);
  }

  /** With clocks further apart both are admitted. */
  lemma SkewedPairExceeds(cfg: Config, skew: int)
    requires cfg.limit > 0 && 2 * skew > HOUR - SECOND
    ensures var events := [EarlyAdd(cfg, skew), LateAdd(cfg, skew)];
            ClocksAgree(events, skew) && AllAnswered(events) && Admissions(cfg, events, 0) == 2 * cfg.limit
  {
    var early, late := EarlyAdd(cfg, skew), LateAdd(cfg, skew);
    FirstWindowIs(cfg.period);
    EarlyCounterExpires(cfg, skew);
    RunSnoc(cfg, [], early, 0);
    RunSnoc(cfg, [early], late, 0);
    assert [] + [early] == [early] && [early] + [late] == [early, late];
  }

  /** The shared budget keeps its limit exactly for clocks within that slack. */
  lemma ClockBoundExact(cfg: Config, skew: int)
    requires cfg.limit > 0 && skew >= 0
    ensures AlwaysWithinLimit(cfg, skew) <==> 2 * skew <= HOUR - SECOND
  {
    if 2 * skew <= HOUR - SECOND {
      forall events, w | ClocksAgree(events, skew) && AllAnswered(events)
        ensures Admissions(cfg, events, w) <= cfg.limit
      {
        HealthyFleetBound(cfg, events, skew, w);
      }
    } else {
      SkewedPairExceeds(cfg, skew);
      var events := [EarlyAdd(cfg, skew), LateAdd(cfg, skew)];
      assert Admissions(cfg, events, 0) > cfg.limit;
    }
  }

  // ---- instances on their own ----

  /** What one instance admitted on its own: its counter is the units until its reset, no reset
      instant ever saw more than the limit, and later ones have seen nothing. */
  ghost predicate LocalInv(cfg: Config, events: seq<Event>, instance: nat, m: Mem)
  {
    match m.windowEnd
    case None => m.used == 0 && forall end :: LocalUnits(cfg, events, instance, end) == 0
    case Some(cur) =>
      && m.used == LocalUnits(cfg, events, instance, cur)
      && (forall end :: LocalUnits(cfg, events, instance, end) <= cfg.limit)
      && (forall end :: end > cur ==> LocalUnits(cfg, events, instance, end) == 0)
  }

  lemma StepLocal(cfg: Config, f: Fleet, e: Event, instance: nat)
    ensures Local(Step(cfg, f, e), instance) ==
            if e.instance == instance && !e.redis.Answered?
            then Charged(cfg.period, cfg.limit, Local(f, instance), e.n, e.again) else Local(f, instance)
  {
  }

  /** A reset instant is left only for a later one. */
  lemma RolledMovesOn(p: Period, m: Mem, now: int)
    ensures var r := Rolled(p, m, now);
            r.windowEnd.Some? && now < r.windowEnd.value &&
            (r == m || (r.used == 0 && (m.windowEnd.Some? ==> r.windowEnd.value > m.windowEnd.value)))
  {
  }

  lemma LocalStep(cfg: Config, events: seq<Event>, instance: nat)
    requires cfg.limit > 0 && events != []
    requires var init := events[..|events| - 1]; LocalInv(cfg, init, instance, Local(Run(cfg, init), instance))
    ensures LocalInv(cfg, events, instance, Local(Run(cfg, events), instance))
  {
    var init, e := events[..|events| - 1], events[|events| - 1];
    var f := Run(cfg, init);
    var m := Local(f, instance);
    StepLocal(cfg, f, e, instance);
    if e.instance == instance && !e.redis.Answered? {
      RolledMovesOn(cfg.period, m, e.again);
      assert Rolled(cfg.period, m, e.again).used == LocalUnits(cfg, init, instance, Resets(cfg, f, e));
    } else {
      assert forall end :: LocalUnits(cfg, events, instance, end) == LocalUnits(cfg, init, instance, end);
    }
  }

  lemma {:induction false} RunKeepsLocal(cfg: Config, events: seq<Event>, instance: nat)
    requires cfg.limit > 0
    ensures LocalInv(cfg, events, instance, Local(Run(cfg, events), instance))
  {
    if events != [] {
      RunKeepsLocal(cfg, events[..|events| - 1], instance);
      LocalStep(cfg, events, instance);
    }
  }

  lemma {:induction false} AllLocalBound(cfg: Config, events: seq<Event>, instances: nat, end: int)
    requires cfg.limit > 0
    ensures AllLocalUnits(cfg, events, instances, end) <= Times(instances, cfg.limit)
  {
    if instances > 0 {
      AllLocalBound(cfg, events, instances - 1, end);
      RunKeepsLocal(cfg, events, instances - 1);
    }
  }

  /** n times a limit. */
  function Times(n: nat, limit: int): int { if n == 0 then 0 else Times(n - 1, limit) + limit }

  lemma {:induction false} TimesIs(n: nat, limit: int)
    ensures Times(n, limit) == n * limit
  {
    if n > 0 { TimesIs(n - 1, limit); }
  }

  lemma {:induction false} AllLocalStep(cfg: Config, events: seq<Event>, instances: nat, end: int)
    requires events != []
    ensures var init, e := events[..|events| - 1], events[|events| - 1];
            AllLocalUnits(cfg, events, instances, end) == AllLocalUnits(cfg, init, instances, end) +
            if e.instance < instances && ChargesLocally(cfg, Run(cfg, init), e, end) then e.n else 0
  {
    if instances > 0 { AllLocalStep(cfg, events, instances - 1, end); }
  }

  lemma {:induction false} AllLocalNone(cfg: Config, instances: nat, end: int)
    ensures AllLocalUnits(cfg, [], instances, end) == 0
  {
    if instances > 0 { AllLocalNone(cfg, instances - 1, end); }
  }

  // ---- the whole fleet ----

  lemma WindowStartsIncrease(p: Period, i: int, j: int)
    requires i < j
    ensures WindowStart(p, i) < WindowStart(p, j)
  {
    if p.Month? { MonthsIncrease(i, j); }
  }

  lemma ResetNamesWindow(p: Period, t: int, w: int)
    ensures Next(p, t) == WindowStart(p, w + 1) <==> Window(p, t) == w
  {
    var v := Window(p, t);
    if v < w { WindowStartsIncrease(p, v + 1, w + 1); }
    if w < v { WindowStartsIncrease(p, w + 1, v + 1); }
  }

  ghost predicate KnownInstances(cfg: Config, events: seq<Event>)
  {
    forall i :: 0 <= i < |events| ==> events[i].instance < cfg.instances
  }

  /** Every admitted unit was admitted by the shared counter or by one instance alone. */
  lemma {:induction false} AdmissionsSplit(cfg: Config, events: seq<Event>, w: int)
    requires KnownInstances(cfg, events)
    ensures var end := WindowStart(cfg.period, w + 1);
            AdmittedUntil(cfg, events, end) ==
            SharedUnits(cfg, events, w, Answered) + AllLocalUnits(cfg, events, cfg.instances, end)
  {
    var end := WindowStart(cfg.period, w + 1);
    if events == [] {
      AllLocalNone(cfg, cfg.instances, end);
    } else {
      var init, e := events[..|events| - 1], events[|events| - 1];
      AdmissionsSplit(cfg, init, w);
      AllLocalStep(cfg, events, cfg.instances, end);
      ResetNamesWindow(cfg.period, e.now, w);
      assert e.instance < cfg.instances;
    }
  }

  /** Whatever Redis does, and in whatever order an instance's Adds reach its own counter, the
      Adds of N instances that report the end of one window admit at most (N + 1) * limit. */
  lemma FleetBound(cfg: Config, events: seq<Event>, skew: int, w: int)
    requires cfg.limit > 0 && 2 * skew <= HOUR - SECOND && ClocksAgree(events, skew) && KnownInstances(cfg, events)
    ensures AdmittedUntil(cfg, events, WindowStart(cfg.period, w + 1)) <= (cfg.instances + 1) * cfg.limit
  {
    AdmittedWithin(cfg, events, skew, w);
    TimesIs(cfg.instances + 1, cfg.limit);
  }

  lemma AdmittedWithin(cfg: Config, events: seq<Event>, skew: int, w: int)
    requires cfg.limit > 0 && 2 * skew <= HOUR - SECOND && ClocksAgree(events, skew) && KnownInstances(cfg, events)
    ensures AdmittedUntil(cfg, events, WindowStart(cfg.period, w + 1)) <= Times(cfg.instances + 1, cfg.limit)
  {
    AdmissionsSplit(cfg, events, w);
    SharedCounterIsExact(cfg, events, skew, w);
    AllLocalBound(cfg, events, cfg.instances, WindowStart(cfg.period, w + 1));
  }

  /** No Add decided alone read its clock in an earlier window than its counter is in. */
  ghost predicate ReadsCounterWindow(cfg: Config, events: seq<Event>)
  {
    forall i :: 0 <= i < |events| && !events[i].redis.Answered? ==>
      Resets(cfg, Run(cfg, events[..i]), events[i]) == Next(cfg.period, events[i].again)
  }

  /** Of two Adds of one instance, the later one reads its clock at most lag before the earlier. */
  ghost predicate LagWithin(events: seq<Event>, lag: int)
  {
    forall i, j :: 0 <= i < j < |events| && events[i].instance == events[j].instance ==>
      Reading(events[i]) - lag <= Reading(events[j])
  }

  ghost predicate EndReadAt(cfg: Config, events: seq<Event>, instance: nat, end: int, j: int)
  {
    0 <= j < |events| && events[j].instance == instance && end == Next(cfg.period, Reading(events[j]))
  }

  /** The end of an instance's window was computed from the clock of one of its Adds. */
  lemma {:induction false} EndWasRead(cfg: Config, events: seq<Event>, instance: nat) returns (j: int)
    requires Local(Run(cfg, events), instance).windowEnd.Some?
    ensures EndReadAt(cfg, events, instance, Local(Run(cfg, events), instance).windowEnd.value, j)
  {
    var n := |events| - 1;
    var init := events[..n];
    StepLocal(cfg, Run(cfg, init), events[n], instance);
    if Local(Run(cfg, events), instance).windowEnd == Local(Run(cfg, init), instance).windowEnd {
      j := EndWasRead(cfg, init, instance);
    } else {
      j := n;
    }
  }

  lemma OrderedReadsSuffice(cfg: Config, events: seq<Event>)
    requires LagWithin(events, 0)
    ensures ReadsCounterWindow(cfg, events)
  {
    forall i | 0 <= i < |events| && !events[i].redis.Answered?
      ensures Resets(cfg, Run(cfg, events[..i]), events[i]) == Next(cfg.period, events[i].again)
    {
      var e, init := events[i], events[..i];
      var m := Local(Run(cfg, init), e.instance);
      if m.windowEnd.Some? {
        var j := EndWasRead(cfg, init, e.instance);
        assert events[j] == init[j];
        WindowMonotone(cfg.period, Reading(events[j]), e.again);
      }
    }
  }

  lemma {:induction false} ClockWindowIsCharged(cfg: Config, events: seq<Event>, w: int)
    requires ReadsCounterWindow(cfg, events)
    ensures Admissions(cfg, events, w) == AdmittedUntil(cfg, events, WindowStart(cfg.period, w + 1))
  {
    if events != [] {
      var n := |events| - 1;
      var init := events[..n];
      forall i | 0 <= i < n ensures init[..i] == events[..i] {}
      ClockWindowIsCharged(cfg, init, w);
      ResetNamesWindow(cfg.period, Reading(events[n]), w);
    }
  }

  /** Counted by the window an Add's clock read, the bound holds while no Add decided alone
      reaches its counter after that has moved on to a later window. */
  lemma FleetBoundByClock(cfg: Config, events: seq<Event>, skew: int, w: int)
    requires cfg.limit > 0 && 2 * skew <= HOUR - SECOND && ClocksAgree(events, skew) && KnownInstances(cfg, events)
    requires ReadsCounterWindow(cfg, events)
    ensures Admissions(cfg, events, w) <= (cfg.instances + 1) * cfg.limit
  {
    ClockWindowIsCharged(cfg, events, w);
    FleetBound(cfg, events, skew, w);
  }

  // ---- what the whole fleet can reach ----

  /** The last instant of the first window. */
  function LastInstant(cfg: Config): int { FirstWindow(cfg.period) - 1 }

  function AloneAt(i: nat, n: nat, t: int): Event { Event(i, n, t, t, t, Unreached) }

  /** The whole limit from Redis, and then from each of the first k instances alone, all at the
      last instant of the first window. */
  function Spree(cfg: Config, k: nat): (events: seq<Event>)
    requires cfg.limit >= 0
    ensures |events| == k + 1
    ensures forall i :: 0 <= i <= k ==> events[i].at == events[i].now == Reading(events[i]) == LastInstant(cfg)
    ensures forall i :: 0 <= i <= k ==> events[i].instance == if i == 0 then 0 else i - 1
  {
    var t := LastInstant(cfg);
    if k == 0 then [Event(0, cfg.limit, t, t, t, Answered)] else Spree(cfg, k - 1) + [AloneAt(k - 1, cfg.limit, t)]
  }

  lemma LastInstantIs(cfg: Config)
    ensures Window(cfg.period, LastInstant(cfg)) == 0 && Next(cfg.period, LastInstant(cfg)) == FirstWindow(cfg.period)
    ensures Window(cfg.period, FirstWindow(cfg.period)) == 1
    ensures Next(cfg.period, FirstWindow(cfg.period)) > FirstWindow(cfg.period)
  {
    FirstWindowIs(cfg.period);
    WindowStartsIncrease(cfg.period, 1, 2);
    WindowIs(cfg.period, FirstWindow(cfg.period), 1);
  }

  lemma AloneSpends(cfg: Config, f: Fleet, i: nat)
    requires cfg.limit > 0 && Local(f, i) == Mem(None, 0)
    ensures var e := AloneAt(i, cfg.limit, LastInstant(cfg));
            && Admitted(cfg, f, e) && Resets(cfg, f, e) == FirstWindow(cfg.period)
            && Local(Step(cfg, f, e), i) == Mem(Some(FirstWindow(cfg.period)), cfg.limit)
  {
    LastInstantIs(cfg);
  }

  ghost predicate Spent(cfg: Config, f: Fleet, k: nat)
  {
    forall i: nat :: Local(f, i) == if i < k then Mem(Some(FirstWindow(cfg.period)), cfg.limit) else Mem(None, 0)
  }

  lemma SpreeStarts(cfg: Config)
    requires cfg.limit > 0
    ensures Spent(cfg, Run(cfg, Spree(cfg, 0)), 0)
    ensures Admissions(cfg, Spree(cfg, 0), 0) == AdmittedUntil(cfg, Spree(cfg, 0), FirstWindow(cfg.period)) == cfg.limit
  {
    LastInstantIs(cfg);
    RunSnoc(cfg, [], Spree(cfg, 0)[0], 0);
    assert [] + [Spree(cfg, 0)[0]] == Spree(cfg, 0);
  }

  lemma {:induction false} SpreeSpends(cfg: Config, k: nat)
    requires cfg.limit > 0
    ensures Spent(cfg, Run(cfg, Spree(cfg, k)), k)
    ensures Admissions(cfg, Spree(cfg, k), 0) == Times(k + 1, cfg.limit)
    ensures AdmittedUntil(cfg, Spree(cfg, k), FirstWindow(cfg.period)) == Times(k + 1, cfg.limit)
  {
    if k == 0 {
      SpreeStarts(cfg);
      assert Times(1, cfg.limit) == Times(0, cfg.limit) + cfg.limit;
    } else {
      SpreeSpends(cfg, k - 1);
      var before, e := Spree(cfg, k - 1), AloneAt(k - 1, cfg.limit, LastInstant(cfg));
      RunSnoc(cfg, before, e, 0);
      UntilSnoc(cfg, before, e, FirstWindow(cfg.period));
      LastInstantIs(cfg);
      OneMoreSpends(cfg, Run(cfg, before), k - 1);
    }
  }

  lemma OneMoreSpends(cfg: Config, f: Fleet, k: nat)
    requires cfg.limit > 0 && Spent(cfg, f, k)
    ensures var e := AloneAt(k, cfg.limit, LastInstant(cfg));
            && Admitted(cfg, f, e) && Resets(cfg, f, e) == FirstWindow(cfg.period)
            && Spent(cfg, Step(cfg, f, e), k + 1)
  {
    var e := AloneAt(k, cfg.limit, LastInstant(cfg));
    AloneSpends(cfg, f, k);
    forall i: nat ensures Local(Step(cfg, f, e), i) ==
                          if i < k + 1 then Mem(Some(FirstWindow(cfg.period)), cfg.limit) else Mem(None, 0)
    {
      StepLocal(cfg, f, e, i);
    }
  }

  lemma UntilSnoc(cfg: Config, events: seq<Event>, e: Event, end: int)
    ensures var f := Run(cfg, events);
            AdmittedUntil(cfg, events + [e], end) == AdmittedUntil(cfg, events, end) +
            if Resets(cfg, f, e) == end && Admitted(cfg, f, e) then e.n else 0
  {
    assert (events + [e])[..|events|] == events;
  }

  /** The bound of (N + 1) * limit is reached, by clocks that agree and are read in order. */
  lemma FleetBoundIsReached(cfg: Config)
    requires cfg.limit > 0 && cfg.instances >= 1
    ensures var events := Spree(cfg, cfg.instances);
            && ClocksAgree(events, 0) && KnownInstances(cfg, events) && LagWithin(events, 0)
            && AdmittedUntil(cfg, events, FirstWindow(cfg.period)) == (cfg.instances + 1) * cfg.limit
  {
    SpreeSpends(cfg, cfg.instances);
    TimesIs(cfg.instances + 1, cfg.limit);
  }

  /** The spree; then instance 0 is asked for nothing in the next window, and an Add that read
      its clock just before gets the lock only now. */
  function LateLock(cfg: Config): seq<Event>
    requires cfg.limit >= 0
  {
    Spree(cfg, cfg.instances) + [AloneAt(0, 0, FirstWindow(cfg.period))] + [AloneAt(0, cfg.limit, LastInstant(cfg))]
  }

  lemma LateLockAdmitted(cfg: Config, f: Fleet)
    requires cfg.limit > 0 && Local(f, 0) == Mem(Some(FirstWindow(cfg.period)), cfg.limit)
    ensures var f' := Step(cfg, f, AloneAt(0, 0, FirstWindow(cfg.period)));
            Admitted(cfg, f', AloneAt(0, cfg.limit, LastInstant(cfg)))
  {
    LastInstantIs(cfg);
    StepLocal(cfg, f, AloneAt(0, 0, FirstWindow(cfg.period)), 0);
  }

  lemma LateLockAdmits(cfg: Config)
    requires cfg.limit > 0 && cfg.instances >= 1
    ensures Admissions(cfg, LateLock(cfg), 0) == Times(cfg.instances + 2, cfg.limit)
  {
    var spree, zero := Spree(cfg, cfg.instances), AloneAt(0, 0, FirstWindow(cfg.period));
    SpreeSpends(cfg, cfg.instances);
    LastInstantIs(cfg);
    LateLockAdmitted(cfg, Run(cfg, spree));
    RunSnoc(cfg, spree, zero, 0);
    RunSnoc(cfg, spree + [zero], AloneAt(0, cfg.limit, LastInstant(cfg)), 0);
  }

  /** The clock is read before the lock is taken: for every period, limit and number of
      instances, a single tick of lag lets one window admit (N + 2) * limit. */
  lemma LateLockExceedsClockBound(cfg: Config)
    requires cfg.limit > 0 && cfg.instances >= 1
    ensures var events := LateLock(cfg);
            && ClocksAgree(events, 0) && KnownInstances(cfg, events) && LagWithin(events, 1)
            && Admissions(cfg, events, 0) == (cfg.instances + 2) * cfg.limit
  {
    LateLockAdmits(cfg);
    TimesIs(cfg.instances + 2, cfg.limit);
  }

  /** However the fleet's Adds interleave, no window of clock readings admits more than
      (N + 1) * limit. */
  ghost predicate ClockBoundHolds(cfg: Config, skew: int, lag: int)
  {
    forall events, w :: ClocksAgree(events, skew) && KnownInstances(cfg, events) && LagWithin(events, lag) ==>
      Admissions(cfg, events, w) <= (cfg.instances + 1) * cfg.limit
  }

  /** Counted by clock readings, the bound holds exactly when each instance's Adds take the lock
      in the order in which they read the clock. */
  lemma LagExact(cfg: Config, skew: int, lag: int)
    requires cfg.limit > 0 && cfg.instances >= 1 && 0 <= 2 * skew <= HOUR - SECOND && lag >= 0
    ensures ClockBoundHolds(cfg, skew, lag) <==> lag == 0
  {
    if lag == 0 {
      forall events, w | ClocksAgree(events, skew) && KnownInstances(cfg, events) && LagWithin(events, lag)
        ensures Admissions(cfg, events, w) <= (cfg.instances + 1) * cfg.limit
      {
        OrderedReadsSuffice(cfg, events);
        FleetBoundByClock(cfg, events, skew, w);
      }
    } else {
      LateLockExceedsClockBound(cfg);
      MoreThan(cfg.instances, cfg.limit);
      assert ClocksAgree(LateLock(cfg), skew) && LagWithin(LateLock(cfg), lag);
    }
  }

  lemma MoreThan(n: nat, limit: int)
    requires limit > 0
    ensures (n + 2) * limit > (n + 1) * limit
  {
  }

  // ---- refusals ----

  /** Instance i is as it was, or decided the Add and only moved to the window of the call. */
  predicate LocalUncharged(cfg: Config, f: Fleet, e: Event, i: nat)
  {
    var m, m' := Local(f, i), Local(Step(cfg, f, e), i);
    m' == m || (i == e.instance && m' == Rolled(cfg.period, m, e.again))
  }

  /** Over every Add and every outcome: a refused Add leaves the units charged to its window in
      Redis as they were, unless its script charged them and only the reply was lost. Nothing
      else is charged, in Redis or by an instance. */
  lemma RefusalChargesNothing(cfg: Config, f: Fleet, e: Event)
    requires !Admitted(cfg, f, e)
    ensures var f' := Step(cfg, f, e);
            SharedUsed(cfg, f', e) == SharedUsed(cfg, f, e) <==>
            !(e.redis.ReplyLost? && ScriptAdmits(cfg, f, e) && e.n > 0)
    ensures forall w :: w != WindowOf(cfg, e) ==> CounterOf(Step(cfg, f, e), w) == CounterOf(f, w)
    ensures forall i :: LocalUncharged(cfg, f, e, i)
  {
    ScriptIsSeen(cfg, f, e);
    forall w ensures w != WindowOf(cfg, e) ==> CounterOf(Step(cfg, f, e), w) == CounterOf(f, w) {
      StepCounter(cfg, f, e, w);
    }
    forall i ensures LocalUncharged(cfg, f, e, i) { StepLocal(cfg, f, e, i); }
  }

  /** A counter just charged has not expired. */
  lemma ScriptIsSeen(cfg: Config, f: Fleet, e: Event)
    ensures SharedUsed(cfg, AfterScript(cfg, f, e), e) ==
            SharedUsed(cfg, f, e) + if ScriptAdmits(cfg, f, e) then e.n else 0
    ensures var f' := AfterScript(cfg, f, e); SharedUsed(cfg, AfterFallback(cfg, f', e), e) == SharedUsed(cfg, f', e)
    ensures SharedUsed(cfg, AfterFallback(cfg, f, e), e) == SharedUsed(cfg, f, e)
  {
    assert TtlSeconds(cfg.period, e.now) * SECOND > 0;
  }

  /** The exception is real, for every period and limit: an instance at its own limit refuses an
      Add that Redis has charged. */
  lemma LostReplyChargesARefusal(cfg: Config)
    requires cfg.limit > 0
    ensures var t := LastInstant(cfg);
            var f := Run(cfg, [AloneAt(0, cfg.limit, t)]);
            var e := Event(0, cfg.limit, t, t, t, ReplyLost);
            !Admitted(cfg, f, e) && SharedUsed(cfg, f, e) == 0 && SharedUsed(cfg, Step(cfg, f, e), e) == cfg.limit
  {
    var t := LastInstant(cfg);
    var spent := AloneAt(0, cfg.limit, t);
    RunSnoc(cfg, [], spent, 0);
    assert [] + [spent] == [spent];
    AloneSpends(cfg, IDLE, 0);
    LastInstantIs(cfg);
    ScriptIsSeen(cfg, Run(cfg, [spent]), Event(0, cfg.limit, t, t, t, ReplyLost));
  }
}
