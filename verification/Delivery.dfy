/**
 Retry timing and the dead-letter file of the audit sinks.
 */
module Delivery {
  import opened Wrappers
  import opened Sequences
  import RotatingFile

  type Event = string

  const MILLISECOND := 1_000_000
  const DEFAULT_MAX_ATTEMPTS := 4
  const DEFAULT_INITIAL := 500 * MILLISECOND
  const DEFAULT_MAX_BACKOFF := 30_000 * MILLISECOND

  /** The configured retry section; a value of zero or less means not set. */
  datatype AuditRetry = AuditRetry(maxAttempts: int, initialBackoffMs: int, maxBackoffMs: int)

  /** Durations are nanoseconds. */
  datatype RetryPolicy = RetryPolicy(maxAttempts: int, initial: int, max: int)

  /** Whatever was configured, at least one post is made, the delays start above zero and the
      first is within the cap; values that were set are kept, save an initial above the cap. */
  method ResolveRetry(c: Option<AuditRetry>) returns (p: RetryPolicy)
    ensures p.maxAttempts >= 1 && 0 < p.initial <= p.max
    ensures c.None? ==> p == RetryPolicy(DEFAULT_MAX_ATTEMPTS, DEFAULT_INITIAL, DEFAULT_MAX_BACKOFF)
    ensures c.Some? ==>
              && (p.maxAttempts == if c.value.maxAttempts > 0 then c.value.maxAttempts else DEFAULT_MAX_ATTEMPTS)
              && (p.max == if c.value.maxBackoffMs > 0 then c.value.maxBackoffMs * MILLISECOND else DEFAULT_MAX_BACKOFF)
              && (var asked := if c.value.initialBackoffMs > 0 then c.value.initialBackoffMs * MILLISECOND
                               else DEFAULT_INITIAL;
                  p.initial == Min(asked, p.max))
  {
    p := RetryPolicy(DEFAULT_MAX_ATTEMPTS, DEFAULT_INITIAL, DEFAULT_MAX_BACKOFF);
    if c.None? { return; }
    var r := c.value;
    if r.maxAttempts > 0 { p := p.(maxAttempts := r.maxAttempts); }
    if r.initialBackoffMs > 0 { p := p.(initial := r.initialBackoffMs * MILLISECOND); }
    if r.maxBackoffMs > 0 { p := p.(max := r.maxBackoffMs * MILLISECOND); }
    if p.initial > p.max { p := p.(initial := p.max); }
  }

  function Min(a: int, b: int): int { if a <= b then a else b }

  /** d doubled k times. */
  function Doubled(d: nat, k: nat): nat { if k == 0 then d else 2 * Doubled(d, k - 1) }

  lemma {:induction false} DoubledGrows(d: nat, i: nat, k: nat)
    requires i <= k
    ensures Doubled(d, i) <= Doubled(d, k)
  {
    if i < k { DoubledGrows(d, i, k - 1); }
  }

  /** The delay before attempt n, 1-based: the capped doubling, of which a random half is kept. */
  method Backoff(p: RetryPolicy, attempt: int) returns (delay: int)
    requires 0 <= p.initial <= p.max
    ensures var full := Min(Doubled(p.initial, if attempt <= 1 then 0 else attempt - 1), p.max);
            full / 2 <= delay <= full
    ensures 0 <= delay <= p.max
  {
    var d := p.initial;
    var rounds := if attempt <= 1 then 0 else attempt - 1;
    for i := 0 to rounds
      invariant d == Doubled(p.initial, i) && d <= p.max
    {
      d := d * 2;
      if d >= p.max {
        d := p.max;
        DoubledGrows(p.initial, i + 1, rounds);
        break;
      }
    }
    assert d == Min(Doubled(p.initial, rounds), p.max);
    if d <= 0 { return 0; }
    var half := d / 2;
    var jitter: nat :| jitter <= half;
    delay := half + jitter;
  }

  type Attempt = RotatingFile.Attempt

  /** The log as the dead-letter writer finds it. */
  datatype Setup = Setup(isOpen: bool, maxBytes: int, marshal: Event -> Option<string>)

  /** The log's files and the counts reported. */
  datatype Letters = Letters(files: seq<seq<string>>, deadLettered: int, dropped: int)

  /** One abandoned event; fails says that writing its line fails. */
  function AfterOne(x: Setup, l: Letters, e: Event, fails: bool): Letters
    requires |l.files| >= 1
  {
    if !x.isOpen || x.marshal(e).None? then l.(dropped := l.dropped + 1)
    else
      var files := RotatingFile.More(l.files, x.maxBytes, RotatingFile.Attempt(x.marshal(e).value, !fails));
      if fails then Letters(files, l.deadLettered, l.dropped + 1) else Letters(files, l.deadLettered + 1, l.dropped)
  }

  /** A batch of them, in order. */
  function AfterAll(x: Setup, l: Letters, batch: seq<Event>, fails: seq<bool>): (r: Letters)
    requires |batch| == |fails| && |l.files| >= 1
    ensures |r.files| >= 1
  {
    if batch == [] then l
    else
      var n := |batch| - 1;
      AfterOne(x, AfterAll(x, l, batch[..n], fails[..n]), batch[n], fails[n])
  }

  /** The abandoned events' file, with the counts it has reported. */
  class DeadLetter {
    const file: RotatingFile.RotatingFile
    const marshal: Event -> Option<string>
    var deadLettered: int
    var dropped: int

    constructor (file: RotatingFile.RotatingFile, marshal: Event -> Option<string>)
      ensures this.file == file && this.marshal == marshal && deadLettered == dropped == 0
    {
      this.file, this.marshal := file, marshal;
      deadLettered, dropped := 0, 0;
    }

    ghost function State(): Letters
      reads this, file
    {
      Letters(file.files, deadLettered, dropped)
    }

    ghost function Env(): Setup
      reads file
    {
      Setup(file.isOpen, file.maxBytes, marshal)
    }

    method WriteOne(e: Event, fails: bool)
      requires file.Valid()
      modifies this, file
      ensures file.Valid() && Env() == old(Env()) && State() == AfterOne(Env(), old(State()), e, fails)
    {
      var data := marshal(e);
      if data.None? {
        dropped := dropped + 1;
        return;
      }
      var ok := file.WriteLine(data.value, fails);
      if ok { deadLettered := deadLettered + 1; } else { dropped := dropped + 1; }
    }

    method Write(batch: seq<Event>, fails: seq<bool>)
      requires file.Valid() && |batch| == |fails|
      modifies this, file
      ensures file.Valid() && Env() == old(Env()) && State() == AfterAll(Env(), old(State()), batch, fails)
    {
      ghost var x, before := Env(), State();
      var i := 0;
      while i < |batch|
        invariant 0 <= i <= |batch|
        invariant file.Valid() && Env() == x && State() == AfterAll(x, before, batch[..i], fails[..i])
      {
        WriteOne(batch[i], fails[i]);
        assert batch[..i + 1][..i] == batch[..i] && fails[..i + 1][..i] == fails[..i];
        i := i + 1;
      }
      assert batch[..i] == batch && fails[..i] == fails;
    }
  }

  /** What one event asks of the log: to write its line, if the log is open and it has one. */
  function AskedOne(x: Setup, e: Event, fails: bool): seq<Attempt>
  {
    if x.isOpen && x.marshal(e).Some? then [RotatingFile.Attempt(x.marshal(e).value, !fails)] else []
  }

  /** What a batch asks of it, in order. */
  function Asked(x: Setup, batch: seq<Event>, fails: seq<bool>): seq<Attempt>
    requires |batch| == |fails|
  {
    if batch == [] then []
    else
      var n := |batch| - 1;
      Asked(x, batch[..n], fails[..n]) + AskedOne(x, batch[n], fails[n])
  }

  lemma OneIsLogged(x: Setup, files: seq<seq<string>>, asked: seq<Attempt>, m: Letters, e: Event, fails: bool)
    requires |files| >= 1 && m.files == RotatingFile.Logged(files, x.maxBytes, asked)
    ensures AfterOne(x, m, e, fails).files == RotatingFile.Logged(files, x.maxBytes, asked + AskedOne(x, e, fails))
  {
    if x.isOpen && x.marshal(e).Some? {
      RotatingFile.LoggedSnoc(files, x.maxBytes, asked, RotatingFile.Attempt(x.marshal(e).value, !fails));
    } else {
      assert asked + [] == asked;
    }
  }

  /** Over every batch: the log takes the marshalled lines in batch order, and every event is
      reported once. */
  lemma {:induction false} BatchIsAccountedFor(x: Setup, l: Letters, batch: seq<Event>, fails: seq<bool>)
    requires |batch| == |fails| && |l.files| >= 1
    ensures var r := AfterAll(x, l, batch, fails);
            && r.files == RotatingFile.Logged(l.files, x.maxBytes, Asked(x, batch, fails))
            && r.deadLettered + r.dropped == l.deadLettered + l.dropped + |batch|
  {
    if batch != [] {
      var n := |batch| - 1;
      BatchIsAccountedFor(x, l, batch[..n], fails[..n]);
      var before := AfterAll(x, l, batch[..n], fails[..n]);
      OneIsLogged(x, l.files, Asked(x, batch[..n], fails[..n]), before, batch[n], fails[n]);
    }
  }

  lemma OneLetterIsLine(x: Setup, l: Letters, e: Event, fails: bool)
    requires |l.files| >= 1
    ensures var r := AfterOne(x, l, e, fails);
            |Flatten(r.files)| - |Flatten(l.files)| == r.deadLettered - l.deadLettered
  {
    if x.isOpen && x.marshal(e).Some? {
      RotatingFile.FlattenMore(l.files, x.maxBytes, RotatingFile.Attempt(x.marshal(e).value, !fails));
    }
  }

  /** The lines ever put into the log grow by exactly the dead letters reported. */
  lemma {:induction false} DeadLettersAreLines(x: Setup, l: Letters, batch: seq<Event>, fails: seq<bool>)
    requires |batch| == |fails| && |l.files| >= 1
    ensures var r := AfterAll(x, l, batch, fails);
            |Flatten(r.files)| - |Flatten(l.files)| == r.deadLettered - l.deadLettered
  {
    if batch != [] {
      var n := |batch| - 1;
      DeadLettersAreLines(x, l, batch[..n], fails[..n]);
      OneLetterIsLine(x, AfterAll(x, l, batch[..n], fails[..n]), batch[n], fails[n]);
    }
  }
}
