/**
 The two-bucket sliding-window limiter. Weights are exact: the source's
 prev * (1 - elapsed) + count is compared after multiplying through by the
 window length, so no rounding enters.
 */
module RateLimit {
  import opened Wrappers

  datatype Config = Config(rpm: int, window: int)

  datatype State = State(start: Option<int>, count: nat, prev: nat)

  const FRESH := State(None, 0, 0)

  ghost predicate Usable(cfg: Config) { cfg.rpm >= 1 && cfg.window >= 1 }

  /** The buckets as of now: the first call opens a window, a window that has passed
      becomes the previous one, and two passed windows forget everything. */
  function Rolled(cfg: Config, s: State, now: int): (r: State)
    ensures r.start.Some?
  {
    if s.start.None? then s.(start := Some(now))
    else
      var age := now - s.start.value;
      if age < cfg.window then s
      else if age >= 2 * cfg.window then State(Some(now), 0, 0)
      else State(Some(s.start.value + cfg.window), 0, s.count)
  }

  /** Scaled weight of the window after n more admissions. */
  function Weight(cfg: Config, s: State, now: int, n: int): int
    requires s.start.Some?
  {
    s.prev * (cfg.window - (now - s.start.value)) + (s.count + n) * cfg.window
  }

  predicate Fits(cfg: Config, s: State, now: int)
  {
    var r := Rolled(cfg, s, now);
    Weight(cfg, r, now, 1) <= cfg.rpm * cfg.window
  }

  function Step(cfg: Config, s: State, now: int): State
  {
    var r := Rolled(cfg, s, now);
    if Fits(cfg, s, now) then r.(count := r.count + 1) else r
  }

  class Limiter {
    const cfg: Config
    var curStart: Option<int>
    var curCount: nat
    var prev: nat

    constructor (rpm: int, window: int)
      requires rpm >= 1 && window >= 1
      ensures cfg == Config(rpm, window) && Snapshot() == FRESH
    {
      cfg := Config(rpm, window);
      curStart, curCount, prev := None, 0, 0;
    }

    ghost function Snapshot(): State
      reads this
    {
      State(curStart, curCount, prev)
    }
  }

  /** New: rpm <= 0 means unlimited, represented by no limiter. */
  method New(rpm: int, window: int) returns (l: Limiter?)
    requires window >= 1
    ensures l == null <==> rpm <= 0
    ensures l != null ==> fresh(l) && l.cfg == Config(rpm, window) && l.Snapshot() == FRESH
  {
    if rpm <= 0 { return null; }
    l := new Limiter(rpm, window);
  }

  method Allow(l: Limiter?, now: int) returns (ok: bool, retryAfter: int)
    requires l != null ==> Usable(l.cfg)
    modifies l
    ensures l == null ==> ok && retryAfter == 0
    ensures l != null ==> ok == Fits(l.cfg, old(l.Snapshot()), now)
    ensures l != null ==> l.Snapshot() == Step(l.cfg, old(l.Snapshot()), now)
    ensures ok ==> retryAfter == 0
    // the advised wait ends the window the caller was refused in
    ensures !ok ==> l.curStart.Some? && now + retryAfter == l.curStart.value + l.cfg.window && retryAfter > 0
  {
    if l == null { return true, 0; }
    var w := l.cfg.window;
    if l.curStart.None? { l.curStart := Some(now); }
    ghost var target := Rolled(l.cfg, old(l.Snapshot()), now);
    while now - l.curStart.value >= w
      invariant l.curStart.Some?
      invariant Rolled(l.cfg, l.Snapshot(), now) == target
      decreases now - l.curStart.value
    {
      if now - l.curStart.value >= 2 * w {
        l.prev, l.curCount := 0, 0;
        l.curStart := Some(now);
        break;
      }
      l.prev := l.curCount;
      l.curCount := 0;
      l.curStart := Some(l.curStart.value + w);
    }
    var age := now - l.curStart.value;
    if l.prev * (w - age) + l.curCount * w + w > l.cfg.rpm * w {
      return false, w - age;
    }
    l.curCount := l.curCount + 1;
    return true, 0;
  }

  /** A refused caller that waits as advised, with nobody else calling, is admitted exactly when
      the window it was refused in has admitted fewer than rpm; otherwise that full window
      still weighs on the next. */
  lemma AdvisedWaitIsEnough(cfg: Config, s: State, now: int)
    requires Usable(cfg) && !Fits(cfg, s, now)
    ensures var r := Step(cfg, s, now);
            Fits(cfg, r, r.start.value + cfg.window) <==> r.count < cfg.rpm
  {
    var r := Step(cfg, s, now);
    var next := State(Some(r.start.value + cfg.window), 0, r.count);
    assert Rolled(cfg, r, r.start.value + cfg.window) == next;
    NextWindowWeight(cfg, next);
  }

  lemma NextWindowWeight(cfg: Config, s: State)
    requires Usable(cfg) && s.start.Some? && s.count == 0
    ensures Weight(cfg, s, s.start.value, 1) <= cfg.rpm * cfg.window <==> s.prev < cfg.rpm
  {
    RoomForOne(s.prev, cfg.rpm, cfg.window);
  }

  lemma RoomForOne(prev: int, rpm: int, w: int)
    requires w >= 1
    ensures prev * w + w <= rpm * w <==> prev < rpm
  {
    assert (rpm - prev - 1) * w == rpm * w - prev * w - w;
    if prev < rpm { ProductSign(rpm - prev - 1, w); } else { ProductSign(prev - rpm, w); }
  }

  // ---- every run ----

  ghost predicate Monotone(times: seq<int>)
  {
    forall i, j :: 0 <= i < j < |times| ==> times[i] <= times[j]
  }

  datatype Run = Run(state: State, admitted: seq<int>)

  function Asked(cfg: Config, before: Run, now: int): Run
  {
    Run(Step(cfg, before.state, now),
        if Fits(cfg, before.state, now) then before.admitted + [now] else before.admitted)
  }

  /** A fresh limiter asked at each of the given instants, with the instants it admitted. */
  function Replay(cfg: Config, times: seq<int>): Run
  {
    if times == [] then Run(FRESH, [])
    else Asked(cfg, Replay(cfg, times[..|times| - 1]), times[|times| - 1])
  }

  /** How many of the admissions fall in the closed interval [lo, hi]. */
  function CountIn(xs: seq<int>, lo: int, hi: int): nat
  {
    if xs == [] then 0
    else CountIn(xs[..|xs| - 1], lo, hi) + (if lo <= xs[|xs| - 1] <= hi then 1 else 0)
  }

  /** The buckets are exactly the admissions of the current and the preceding window. */
  ghost predicate Buckets(cfg: Config, r: Run, last: int)
  {
    var n := |r.admitted|;
    match r.state.start
    case None => r == Run(FRESH, [])
    case Some(c) =>
      && r.state.count <= cfg.rpm && r.state.prev <= cfg.rpm
      && r.state.count + r.state.prev <= n
      && c <= last < c + cfg.window
      && (forall i :: 0 <= i < n - r.state.count - r.state.prev ==> r.admitted[i] < c - cfg.window)
      && (forall i :: n - r.state.count - r.state.prev <= i < n - r.state.count ==>
            c - cfg.window <= r.admitted[i] < c)
      && (forall i :: n - r.state.count <= i < n ==> c <= r.admitted[i] <= last)
  }

  lemma CountWithinRpm(cfg: Config, s: State, now: int)
    requires Usable(cfg) && s.start.Some? && now - s.start.value < cfg.window
    requires Weight(cfg, s, now, 1) <= cfg.rpm * cfg.window
    ensures s.count + 1 <= cfg.rpm
    ensures s.prev > 0 ==> s.count + 1 < cfg.rpm
  {
    WeightLeavesRoom(s.prev, cfg.window - (now - s.start.value), s.count + 1, cfg.window, cfg.rpm);
  }

  lemma ProductSign(a: nat, b: int)
    requires b >= 1
    ensures a * b >= 0 && (a > 0 ==> a * b >= 1)
  {
  }

  lemma WeightLeavesRoom(prev: nat, left: int, count: int, w: int, rpm: int)
    requires left >= 1 && w >= 1 && prev * left + count * w <= rpm * w
    ensures count <= rpm && (prev > 0 ==> count < rpm)
  {
    ProductSign(prev, left);
    CancelWindow(count, rpm, w);
  }

  lemma CancelWindow(a: int, b: int, w: int)
    requires w >= 1
    ensures a * w <= b * w ==> a <= b
    ensures a * w < b * w ==> a < b
  {
  }

  lemma RollKeepsBuckets(cfg: Config, r: Run, last: int, now: int)
    requires Usable(cfg) && Buckets(cfg, r, last) && (r.state.start.Some? ==> last <= now)
    ensures Buckets(cfg, Run(Rolled(cfg, r.state, now), r.admitted), now)
  {
  }

  lemma AdmissionKeepsBuckets(cfg: Config, r: Run, now: int)
    requires Usable(cfg) && Buckets(cfg, r, now) && r.state.start.Some? && r.state.count < cfg.rpm
    ensures Buckets(cfg, Run(r.state.(count := r.state.count + 1), r.admitted + [now]), now)
  {
  }

  lemma AskedKeepsBuckets(cfg: Config, before: Run, last: int, now: int)
    requires Usable(cfg) && Buckets(cfg, before, last) && (before.state.start.Some? ==> last <= now)
    ensures Buckets(cfg, Asked(cfg, before, now), now)
  {
    var mid := Run(Rolled(cfg, before.state, now), before.admitted);
    RollKeepsBuckets(cfg, before, last, now);
    if Fits(cfg, before.state, now) {
      CountWithinRpm(cfg, mid.state, now);
      AdmissionKeepsBuckets(cfg, mid, now);
    }
  }

  lemma {:induction false} RunKeepsBuckets(cfg: Config, times: seq<int>)
    requires Usable(cfg) && Monotone(times) && times != []
    ensures Buckets(cfg, Replay(cfg, times), times[|times| - 1])
  {
    var init := times[..|times| - 1];
    var now := times[|times| - 1];
    if init != [] { RunKeepsBuckets(cfg, init); }
    AskedKeepsBuckets(cfg, Replay(cfg, init), if init == [] then now else init[|init| - 1], now);
  }

  lemma {:induction false} CountBelow(xs: seq<int>, lo: int, hi: int, skip: nat)
    requires skip <= |xs|
    requires forall i :: 0 <= i < skip ==> xs[i] < lo
    ensures CountIn(xs, lo, hi) <= |xs| - skip
  {
    if |xs| > 0 {
      CountBelow(xs[..|xs| - 1], lo, hi, if skip < |xs| then skip else skip - 1);
    }
  }

  lemma {:induction false} CountNone(xs: seq<int>, lo: int, hi: int)
    requires forall i :: 0 <= i < |xs| ==> xs[i] < lo || hi < xs[i]
    ensures CountIn(xs, lo, hi) == 0
  {
    if |xs| > 0 { CountNone(xs[..|xs| - 1], lo, hi); }
  }

  lemma {:induction false} CountAll(xs: seq<int>, lo: int, hi: int)
    requires forall i :: 0 <= i < |xs| ==> lo <= xs[i] <= hi
    ensures CountIn(xs, lo, hi) == |xs|
  {
    if |xs| > 0 { CountAll(xs[..|xs| - 1], lo, hi); }
  }

  lemma {:induction false} CountConcat(xs: seq<int>, ys: seq<int>, lo: int, hi: int)
    ensures CountIn(xs + ys, lo, hi) == CountIn(xs, lo, hi) + CountIn(ys, lo, hi)
  {
    if ys == [] {
      assert xs + ys == xs;
    } else {
      assert (xs + ys)[..|xs + ys| - 1] == xs + ys[..|ys| - 1];
      CountConcat(xs, ys[..|ys| - 1], lo, hi);
    }
  }

  /** Counting a sequence whose elements from a to b, and no others, lie in [lo, hi]. */
  lemma CountSlice(xs: seq<int>, a: nat, b: nat, lo: int, hi: int)
    requires a <= b <= |xs|
    requires forall i :: 0 <= i < a || b <= i < |xs| ==> xs[i] < lo || hi < xs[i]
    requires forall i :: a <= i < b ==> lo <= xs[i] <= hi
    ensures CountIn(xs, lo, hi) == b - a
  {
    assert xs[..a] + xs[a..b] + xs[b..] == xs;
    CountConcat(xs[..a] + xs[a..b], xs[b..], lo, hi);
    CountConcat(xs[..a], xs[a..b], lo, hi);
    CountNone(xs[..a], lo, hi);
    CountAll(xs[a..b], lo, hi);
    CountNone(xs[b..], lo, hi);
  }

  /** The buckets count the admissions of the current window, up to now, and of the one before. */
  lemma BucketsCount(cfg: Config, r: Run, last: int)
    requires Usable(cfg) && Buckets(cfg, r, last) && r.state.start.Some?
    ensures var c := r.state.start.value;
            && r.state.count == CountIn(r.admitted, c, c + cfg.window - 1) == CountIn(r.admitted, c, last)
            && r.state.prev == CountIn(r.admitted, c - cfg.window, c - 1)
  {
    var c, n := r.state.start.value, |r.admitted|;
    CountSlice(r.admitted, n - r.state.count, n, c, c + cfg.window - 1);
    CountSlice(r.admitted, n - r.state.count, n, c, last);
    CountSlice(r.admitted, n - r.state.count - r.state.prev, n - r.state.count, c - cfg.window, c - 1);
  }

  lemma ReplayHasStart(cfg: Config, times: seq<int>)
    requires times != []
    ensures Replay(cfg, times).state.start.Some?
  {
  }

  /** In each fixed window at most rpm calls are admitted, and the two buckets count
      exactly the admissions of the current and of the preceding window. */
  lemma FixedWindowBound(cfg: Config, times: seq<int>)
    requires Usable(cfg) && Monotone(times) && times != []
    ensures var r := Replay(cfg, times);
            r.state.start.Some? &&
            var c := r.state.start.value;
            && r.state.count <= cfg.rpm && r.state.prev <= cfg.rpm
            && r.state.count == CountIn(r.admitted, c, c + cfg.window - 1)
            && r.state.prev == CountIn(r.admitted, c - cfg.window, c - 1)
  {
    RunKeepsBuckets(cfg, times);
    ReplayHasStart(cfg, times);
    BucketsCount(cfg, Replay(cfg, times), times[|times| - 1]);
  }

  /** prev * (1 - elapsed) + count <= rpm, multiplied by the window length. */
  ghost predicate WithinRate(cfg: Config, prev: int, count: int, elapsed: int)
  {
    prev * (cfg.window - elapsed) + count * cfg.window <= cfg.rpm * cfg.window
  }

  lemma NewestWeight(cfg: Config, before: Run, now: int)
    ensures var r := Asked(cfg, before, now);
            && r.state.start.Some?
            && (|r.admitted| > |before.admitted| ==>
                  WithinRate(cfg, r.state.prev, r.state.count, now - r.state.start.value))
  {
  }

  /** The admissions of the fixed window that now falls in, from its start c on, and of the
      window before it are within the rate. */
  ghost predicate CountsWithinRate(cfg: Config, r: Run, now: int)
  {
    r.state.start.Some? &&
    var c, w := r.state.start.value, cfg.window;
    c <= now < c + w && WithinRate(cfg, CountIn(r.admitted, c - w, c - 1), CountIn(r.admitted, c, now), now - c)
  }

  lemma WeightOfCounts(cfg: Config, r: Run, now: int)
    requires Usable(cfg) && Buckets(cfg, r, now) && r.state.start.Some?
    requires WithinRate(cfg, r.state.prev, r.state.count, now - r.state.start.value)
    ensures CountsWithinRate(cfg, r, now)
  {
    BucketsCount(cfg, r, now);
  }

  /** Every admission satisfies prev * (1 - elapsed) + count <= rpm, itself included, where prev
      and count are the admissions of the preceding and of the current fixed window. */
  lemma AdmissionIsWeighted(cfg: Config, times: seq<int>)
    requires Usable(cfg) && Monotone(times) && times != []
    requires |Replay(cfg, times).admitted| > |Replay(cfg, times[..|times| - 1]).admitted|
    ensures CountsWithinRate(cfg, Replay(cfg, times), times[|times| - 1])
  {
    var now := times[|times| - 1];
    RunKeepsBuckets(cfg, times);
    NewestWeight(cfg, Replay(cfg, times[..|times| - 1]), now);
    WeightOfCounts(cfg, Replay(cfg, times), now);
  }

  lemma IntervalWithinBuckets(cfg: Config, r: Run, last: int, t: int)
    requires Usable(cfg) && Buckets(cfg, r, last) && r.state.start.Some? && t <= last <= t + cfg.window
    ensures CountIn(r.admitted, t, t + cfg.window) <= r.state.count + r.state.prev
  {
    CountBelow(r.admitted, t, t + cfg.window, |r.admitted| - r.state.count - r.state.prev);
  }

  lemma AdmissionLeavesRoom(cfg: Config, before: Run, now: int)
    requires Usable(cfg) && Fits(cfg, before.state, now)
    requires before.state.start.Some? ==> before.state.start.value <= now
    ensures var s := Asked(cfg, before, now).state;
            s.count <= cfg.rpm && (s.prev > 0 ==> s.count < cfg.rpm)
  {
    CountWithinRpm(cfg, Rolled(cfg, before.state, now), now);
  }

  /** The interval that ends with the newest admission holds fewer than 2 * rpm. */
  lemma NewestIntervalBound(cfg: Config, times: seq<int>, t: int)
    requires Usable(cfg) && Monotone(times) && times != []
    requires Fits(cfg, Replay(cfg, times[..|times| - 1]).state, times[|times| - 1])
    requires t <= times[|times| - 1] <= t + cfg.window
    ensures CountIn(Replay(cfg, times).admitted, t, t + cfg.window) < 2 * cfg.rpm
  {
    var init, now := times[..|times| - 1], times[|times| - 1];
    if init != [] { RunKeepsBuckets(cfg, init); }
    RunKeepsBuckets(cfg, times);
    ReplayHasStart(cfg, times);
    AdmissionLeavesRoom(cfg, Replay(cfg, init), now);
    IntervalWithinBuckets(cfg, Replay(cfg, times), now, t);
  }

  /** Over every run and for every instant t, strictly fewer than 2 * rpm calls are
      admitted in [t, t + window], across rolls and idle resets. */
  lemma {:induction false} RollingWindowBound(cfg: Config, times: seq<int>, t: int)
    requires Usable(cfg) && Monotone(times)
    ensures CountIn(Replay(cfg, times).admitted, t, t + cfg.window) < 2 * cfg.rpm
  {
    if times != [] {
      var now := times[|times| - 1];
      var before := Replay(cfg, times[..|times| - 1]);
      if Fits(cfg, before.state, now) && t <= now <= t + cfg.window {
        NewestIntervalBound(cfg, times, t);
      } else {
        RollingWindowBound(cfg, times[..|times| - 1], t);
        CountConcat(before.admitted, [now], t, t + cfg.window);
      }
    }
  }

  // ---- how sharp the bound is ----

  function Burst(n: nat, at: int): (b: seq<int>)
    ensures |b| == n && forall i :: 0 <= i < n ==> b[i] == at
  {
    seq(n, i => at)
  }

  lemma SmallerBurstFits(cfg: Config, r: State, at: int, n: nat)
    requires Usable(cfg) && r.start.Some? && n >= 1
    requires Weight(cfg, r, at, n) <= cfg.rpm * cfg.window
    ensures Weight(cfg, r, at, n - 1) <= cfg.rpm * cfg.window
    ensures Weight(cfg, r.(count := r.count + n - 1), at, 1) == Weight(cfg, r, at, n)
  {
    assert (r.count + n) * cfg.window == (r.count + n - 1) * cfg.window + cfg.window;
  }

  lemma ReplayLast(cfg: Config, pre: seq<int>, at: int)
    ensures Replay(cfg, pre + [at]) == Asked(cfg, Replay(cfg, pre), at)
  {
    assert (pre + [at])[..|pre + [at]| - 1] == pre;
  }

  /** The newest of n calls at one instant, given that the earlier ones were admitted. */
  lemma AskedInBurst(cfg: Config, before: Run, r: State, at: int, n: nat)
    requires Usable(cfg) && n >= 1 && r.start.Some?
    requires Rolled(cfg, before.state, at) == r.(count := r.count + n - 1)
    requires Weight(cfg, r, at, n) <= cfg.rpm * cfg.window
    ensures Asked(cfg, before, at) == Run(r.(count := r.count + n), before.admitted + [at])
  {
    SmallerBurstFits(cfg, r, at, n);
  }

  lemma BurstSnoc(pre: seq<int>, n: nat, at: int)
    requires n >= 1
    ensures pre + Burst(n - 1, at) + [at] == pre + Burst(n, at)
  {
  }

  /** A burst that fits as a whole is admitted as a whole. */
  lemma {:induction false} BurstAdmitted(cfg: Config, pre: seq<int>, r: State, at: int, n: nat)
    requires Usable(cfg) && n >= 1
    requires r == Rolled(cfg, Replay(cfg, pre).state, at) && at - r.start.value < cfg.window
    requires Weight(cfg, r, at, n) <= cfg.rpm * cfg.window
    ensures Replay(cfg, pre + Burst(n, at)) ==
            Run(r.(count := r.count + n), Replay(cfg, pre).admitted + Burst(n, at))
  {
    BurstSnoc(pre, n, at);
    BurstSnoc(Replay(cfg, pre).admitted, n, at);
    ReplayLast(cfg, pre + Burst(n - 1, at), at);
    if n == 1 {
      assert pre + Burst(0, at) == pre && Replay(cfg, pre).admitted + Burst(0, at) == Replay(cfg, pre).admitted;
      AskedInBurst(cfg, Replay(cfg, pre), r, at, n);
    } else {
      SmallerBurstFits(cfg, r, at, n);
      BurstAdmitted(cfg, pre, r, at, n - 1);
      AskedInBurst(cfg, Replay(cfg, pre + Burst(n - 1, at)), r, at, n);
    }
  }

  /** Calls that put rpm admissions at the very end of one window whose own previous
      window is empty, then extra ones near the end of the next. */
  function Adversary(cfg: Config, extra: nat): seq<int>
    requires Usable(cfg)
  {
    AdversaryStart(cfg) + Burst(extra, 4 * cfg.window - 2)
  }

  lemma FullWindowRefusesNext(cfg: Config)
    requires Usable(cfg)
    ensures var s := State(Some(0), cfg.rpm, 0);
            !Fits(cfg, s, cfg.window) && Step(cfg, s, cfg.window) == State(Some(cfg.window), 0, cfg.rpm)
  {
    var r := State(Some(cfg.window), 0, cfg.rpm);
    assert Rolled(cfg, State(Some(0), cfg.rpm, 0), cfg.window) == r;
    assert Weight(cfg, r, cfg.window, 1) == cfg.rpm * cfg.window + cfg.window;
  }

  lemma AdversaryWarmup(cfg: Config)
    requires Usable(cfg)
    ensures var times := Burst(cfg.rpm, 0) + [cfg.window];
            Replay(cfg, times) == Run(State(Some(cfg.window), 0, cfg.rpm), Burst(cfg.rpm, 0))
  {
    var r := State(Some(0), 0, 0);
    assert Weight(cfg, r, 0, cfg.rpm) == cfg.rpm * cfg.window;
    BurstAdmitted(cfg, [], r, 0, cfg.rpm);
    assert [] + Burst(cfg.rpm, 0) == Burst(cfg.rpm, 0);
    FullWindowRefusesNext(cfg);
    ReplayLast(cfg, Burst(cfg.rpm, 0), cfg.window);
  }

  function AdversaryStart(cfg: Config): seq<int>
    requires Usable(cfg)
  {
    Burst(cfg.rpm, 0) + [cfg.window] + Burst(cfg.rpm, 3 * cfg.window - 1)
  }

  lemma AdversaryFillsWindow(cfg: Config)
    requires Usable(cfg)
    ensures Replay(cfg, AdversaryStart(cfg)) ==
            Run(State(Some(2 * cfg.window), cfg.rpm, 0), Burst(cfg.rpm, 0) + Burst(cfg.rpm, 3 * cfg.window - 1))
  {
    var w := cfg.window;
    var r := State(Some(2 * w), 0, 0);
    AdversaryWarmup(cfg);
    assert Rolled(cfg, State(Some(w), 0, cfg.rpm), 3 * w - 1) == r;
    assert Weight(cfg, r, 3 * w - 1, cfg.rpm) == cfg.rpm * w;
    BurstAdmitted(cfg, Burst(cfg.rpm, 0) + [w], r, 3 * w - 1, cfg.rpm);
  }

  lemma LateWeight(cfg: Config, extra: nat)
    requires Usable(cfg)
    ensures Weight(cfg, State(Some(3 * cfg.window), 0, cfg.rpm), 4 * cfg.window - 2, extra) ==
            cfg.rpm * 2 + extra * cfg.window
  {
  }

  lemma AdversaryReplay(cfg: Config, extra: nat)
    requires Usable(cfg) && cfg.window >= 2 && extra >= 1
    requires 2 * cfg.rpm + extra * cfg.window <= cfg.rpm * cfg.window
    ensures Replay(cfg, Adversary(cfg, extra)).admitted ==
            Burst(cfg.rpm, 0) + Burst(cfg.rpm, 3 * cfg.window - 1) + Burst(extra, 4 * cfg.window - 2)
  {
    var w := cfg.window;
    var q := State(Some(3 * w), 0, cfg.rpm);
    AdversaryFillsWindow(cfg);
    LateWeight(cfg, extra);
    assert Rolled(cfg, State(Some(2 * w), cfg.rpm, 0), 4 * w - 2) == q;
    BurstAdmitted(cfg, AdversaryStart(cfg), q, 4 * w - 2, extra);
  }

  /** Admissions in the half-open interval of one window length that starts at t. */
  function AdmittedFrom(cfg: Config, times: seq<int>, t: int): nat
  {
    CountIn(Replay(cfg, times).admitted, t, t + cfg.window - 1)
  }

  lemma AdversaryIsMonotone(cfg: Config, extra: nat)
    requires Usable(cfg) && cfg.window >= 2
    ensures Monotone(Adversary(cfg, extra))
  {
    var w := cfg.window;
    var a := Burst(cfg.rpm, 0) + [w];
    var b := a + Burst(cfg.rpm, 3 * w - 1);
    assert Monotone(a);
    assert Monotone(b);
  }

  lemma AdversaryAdmits(cfg: Config, extra: nat)
    requires Usable(cfg) && cfg.window >= 2 && extra >= 1
    requires 2 * cfg.rpm + extra * cfg.window <= cfg.rpm * cfg.window
    ensures Monotone(Adversary(cfg, extra))
    ensures AdmittedFrom(cfg, Adversary(cfg, extra), 3 * cfg.window - 1) == cfg.rpm + extra
  {
    AdversaryIsMonotone(cfg, extra);
    AdversaryReplay(cfg, extra);
    var lo, hi := 3 * cfg.window - 1, 4 * cfg.window - 2;
    CountConcat(Burst(cfg.rpm, 0) + Burst(cfg.rpm, lo), Burst(extra, hi), lo, hi);
    CountConcat(Burst(cfg.rpm, 0), Burst(cfg.rpm, lo), lo, hi);
    CountNone(Burst(cfg.rpm, 0), lo, hi);
    CountAll(Burst(cfg.rpm, lo), lo, hi);
    CountAll(Burst(extra, hi), lo, hi);
  }

  /** 2 * rpm - 1 admissions in one half-open window length are reachable. */
  lemma RollingWindowBoundIsTight(cfg: Config)
    requires Usable(cfg) && cfg.rpm >= 2 && 2 * cfg.rpm <= cfg.window
    ensures exists times, t :: Monotone(times) && AdmittedFrom(cfg, times, t) == 2 * cfg.rpm - 1
  {
    var extra := cfg.rpm - 1;
    assert extra * cfg.window == cfg.rpm * cfg.window - cfg.window;
    AdversaryAdmits(cfg, extra);
  }

  /** The documented claim: at most rpm requests in any half-open interval of one window. */
  ghost predicate AtMostRpmPerRollingWindow(cfg: Config)
  {
    forall times, t :: Monotone(times) ==> AdmittedFrom(cfg, times, t) <= cfg.rpm
  }

  lemma {:induction false} CountWidens(xs: seq<int>, lo: int, hi: int, hi': int)
    requires hi <= hi'
    ensures CountIn(xs, lo, hi) <= CountIn(xs, lo, hi')
  {
    if xs != [] { CountWidens(xs[..|xs| - 1], lo, hi, hi'); }
  }

  lemma OneExtraFits(rpm: int, w: int)
    requires rpm >= 2 && w >= 4
    ensures 2 * rpm + 1 * w <= rpm * w
  {
    assert (rpm - 2) * (w - 2) >= 0;
    assert (rpm - 2) * (w - 2) == rpm * w - 2 * rpm - 2 * w + 4;
  }

  /** The documented claim holds for exactly one setting: one request per window. */
  lemma RollingClaimExact(cfg: Config)
    requires Usable(cfg) && cfg.window >= 4
    ensures AtMostRpmPerRollingWindow(cfg) <==> cfg.rpm == 1
  {
    if cfg.rpm == 1 {
      forall times, t | Monotone(times) ensures AdmittedFrom(cfg, times, t) <= cfg.rpm {
        RollingWindowBound(cfg, times, t);
        CountWidens(Replay(cfg, times).admitted, t, t + cfg.window - 1, t + cfg.window);
      }
    } else {
      OneExtraFits(cfg.rpm, cfg.window);
      AdversaryAdmits(cfg, 1);
    }
  }
}
