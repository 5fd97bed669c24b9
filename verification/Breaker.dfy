/**
 The per-upstream circuit breaker. What it must answer is written as a function
 of the calls it has seen; the class keeps four fields instead of that history
 and is proved to give the same answers.
 */
module Breaker {
  import opened Wrappers

  /** One observed call, with the instant it read from the clock. */
  datatype Event = Admitted(at: int) | Refused(at: int) | Succeeded | Failed(at: int)

  datatype Mode = Closed | Open | HalfOpen

  datatype Config = Config(threshold: int, halfOpenAfter: int)

  function Init(h: seq<Event>): seq<Event>
    requires h != []
  {
    h[..|h| - 1]
  }

  /** Failures recorded since the last recorded success. */
  function TrailingFailures(h: seq<Event>): nat
  {
    if h == [] then 0
    else match h[|h| - 1]
      case Failed(_) => TrailingFailures(Init(h)) + 1
      case Succeeded => 0
      case _ => TrailingFailures(Init(h))
  }

  function LastFailure(h: seq<Event>): Option<int>
  {
    if h == [] then None
    else match h[|h| - 1]
      case Failed(at) => Some(at)
      case _ => LastFailure(Init(h))
  }

  /** Whether some call was admitted after the last recorded outcome. */
  predicate AdmittedSinceRecord(h: seq<Event>)
  {
    if h == [] then false
    else match h[|h| - 1]
      case Admitted(_) => true
      case Refused(_) => AdmittedSinceRecord(Init(h))
      case _ => false
  }

  predicate Tripped(cfg: Config, h: seq<Event>)
  {
    TrailingFailures(h) >= cfg.threshold
  }

  predicate CooledDown(cfg: Config, h: seq<Event>, now: int)
  {
    LastFailure(h).Some? && now - LastFailure(h).value >= cfg.halfOpenAfter
  }

  /** The verdict the history calls for. */
  predicate Admits(cfg: Config, h: seq<Event>, now: int)
  {
    !Tripped(cfg, h) || (CooledDown(cfg, h, now) && !AdmittedSinceRecord(h))
  }

  /** Every verdict in the history is the one the calls before it call for. */
  predicate Consistent(cfg: Config, h: seq<Event>)
  {
    h == [] || (Consistent(cfg, Init(h)) && CalledFor(cfg, Init(h), h[|h| - 1]))
  }

  predicate CalledFor(cfg: Config, h: seq<Event>, e: Event)
  {
    (e.Admitted? ==> Admits(cfg, h, e.at)) && (e.Refused? ==> !Admits(cfg, h, e.at))
  }

  lemma {:induction false} ConsistentAt(cfg: Config, h: seq<Event>, i: nat)
    requires Consistent(cfg, h) && i < |h|
    ensures CalledFor(cfg, h[..i], h[i])
  {
    if i < |h| - 1 {
      ConsistentAt(cfg, Init(h), i);
      assert Init(h)[..i] == h[..i];
    }
  }

  lemma Extend(h: seq<Event>, e: Event)
    ensures Init(h + [e]) == h && (h + [e])[|h + [e]| - 1] == e
  {
  }

  lemma AfterFailed(h: seq<Event>, at: int)
    ensures var h' := h + [Failed(at)];
            && TrailingFailures(h') == TrailingFailures(h) + 1
            && LastFailure(h') == Some(at) && !AdmittedSinceRecord(h')
  {
    Extend(h, Failed(at));
  }

  lemma AfterSucceeded(h: seq<Event>)
    ensures var h' := h + [Succeeded];
            TrailingFailures(h') == 0 && LastFailure(h') == LastFailure(h) && !AdmittedSinceRecord(h')
  {
    Extend(h, Succeeded);
  }

  lemma AfterVerdict(h: seq<Event>, e: Event)
    requires e.Admitted? || e.Refused?
    ensures var h' := h + [e];
            && TrailingFailures(h') == TrailingFailures(h) && LastFailure(h') == LastFailure(h)
            && (AdmittedSinceRecord(h') <==> e.Admitted? || AdmittedSinceRecord(h))
  {
    Extend(h, e);
  }

  lemma ConsistentExtend(cfg: Config, h: seq<Event>, e: Event)
    requires Consistent(cfg, h) && CalledFor(cfg, h, e)
    ensures Consistent(cfg, h + [e])
  {
    Extend(h, e);
  }

  /** The four fields. */
  datatype Fields = Fields(mode: Mode, failures: int, openedAt: int, probing: bool)

  /** The fields say what the history says, and half-open always means that a probe is out. */
  ghost predicate Reflects(cfg: Config, s: Fields, h: seq<Event>)
  {
    && s.failures == TrailingFailures(h)
    && (s.mode == Closed <==> !Tripped(cfg, h))
    && (s.mode != Closed ==> LastFailure(h) == Some(s.openedAt))
    && (s.mode == HalfOpen <==> Tripped(cfg, h) && AdmittedSinceRecord(h))
    && (s.probing <==> s.mode == HalfOpen)
  }

  function AfterFailure(cfg: Config, s: Fields, now: int): Fields
  {
    if s.mode == HalfOpen || s.failures + 1 >= cfg.threshold then Fields(Open, s.failures + 1, now, false)
    else Fields(s.mode, s.failures + 1, s.openedAt, false)
  }

  lemma FailureReflects(cfg: Config, s: Fields, h: seq<Event>, now: int)
    requires cfg.threshold > 0 && Reflects(cfg, s, h)
    ensures Reflects(cfg, AfterFailure(cfg, s, now), h + [Failed(now)])
  {
    AfterFailed(h, now);
  }

  lemma SuccessReflects(cfg: Config, s: Fields, h: seq<Event>)
    requires cfg.threshold > 0 && Reflects(cfg, s, h)
    ensures Reflects(cfg, Fields(Closed, 0, s.openedAt, false), h + [Succeeded])
  {
    AfterSucceeded(h);
  }

  /** What Allow answers from the fields alone. */
  predicate Passes(cfg: Config, s: Fields, now: int)
  {
    s.mode == Closed || (s.mode == Open && now - s.openedAt >= cfg.halfOpenAfter) || (s.mode == HalfOpen && !s.probing)
  }

  lemma PassesAsCalledFor(cfg: Config, s: Fields, h: seq<Event>, now: int)
    requires Reflects(cfg, s, h)
    ensures Passes(cfg, s, now) <==> Admits(cfg, h, now)
  {
  }

  lemma VerdictReflects(cfg: Config, s: Fields, h: seq<Event>, now: int)
    requires Reflects(cfg, s, h)
    ensures var ok := Passes(cfg, s, now);
            Reflects(cfg, if ok && s.mode == Open then Fields(HalfOpen, s.failures, s.openedAt, true) else s,
                     h + [if ok then Admitted(now) else Refused(now)])
  {
    AfterVerdict(h, if Passes(cfg, s, now) then Admitted(now) else Refused(now));
  }

  class Breaker {
    const cfg: Config
    var mode: Mode
    var failures: int
    var openedAt: int
    var probing: bool
    ghost var history: seq<Event>

    ghost function State(): Fields
      reads this
    {
      Fields(mode, failures, openedAt, probing)
    }

    ghost predicate Valid()
      reads this
    {
      cfg.threshold > 0 && Consistent(cfg, history) && Reflects(cfg, State(), history)
    }

    constructor (threshold: int, halfOpenAfter: int)
      requires threshold > 0
      ensures Valid() && history == [] && cfg == Config(threshold, halfOpenAfter)
    {
      cfg := Config(threshold, halfOpenAfter);
      mode, failures, openedAt, probing, history := Closed, 0, 0, false, [];
    }
  }

  /** New: a threshold that is not positive means no breaker at all. */
  method New(threshold: int, halfOpenAfter: int) returns (b: Breaker?)
    ensures b == null <==> threshold <= 0
    ensures b != null ==> fresh(b) && b.Valid() && b.history == [] && b.cfg == Config(threshold, halfOpenAfter)
  {
    if threshold <= 0 { return null; }
    b := new Breaker(threshold, halfOpenAfter);
  }

  method Allow(b: Breaker?, now: int) returns (ok: bool)
    requires b != null ==> b.Valid()
    modifies b
    ensures b == null ==> ok
    ensures b != null ==> b.Valid() && ok == Admits(b.cfg, old(b.history), now)
    ensures b != null ==> b.history == old(b.history) + [if ok then Admitted(now) else Refused(now)]
  {
    if b == null { return true; }
    PassesAsCalledFor(b.cfg, b.State(), b.history, now);
    VerdictReflects(b.cfg, b.State(), b.history, now);
    match b.mode {
      case Closed => ok := true;
      case Open =>
        ok := now - b.openedAt >= b.cfg.halfOpenAfter;
        if ok { b.mode, b.probing := HalfOpen, true; }
      case HalfOpen =>
        ok := !b.probing;
        b.probing := true;
    }
    ghost var e := if ok then Admitted(now) else Refused(now);
    ConsistentExtend(b.cfg, b.history, e);
    b.history := b.history + [e];
  }

  method Record(b: Breaker?, success: bool, now: int)
    requires b != null ==> b.Valid()
    modifies b
    ensures b != null ==> b.Valid()
    ensures b != null ==> b.history == old(b.history) + [if success then Succeeded else Failed(now)]
  {
    if b == null { return; }
    ghost var e := if success then Succeeded else Failed(now);
    ConsistentExtend(b.cfg, b.history, e);
    SuccessReflects(b.cfg, b.State(), b.history);
    FailureReflects(b.cfg, b.State(), b.history, now);
    b.history := b.history + [e];
    b.probing := false;
    if success {
      b.mode, b.failures := Closed, 0;
      return;
    }
    b.failures := b.failures + 1;
    if b.mode == HalfOpen || b.failures >= b.cfg.threshold {
      b.mode, b.openedAt := Open, now;
    }
  }

  /** State: half-open is reported as soon as a probe could be admitted or one is out. */
  method ReportedState(b: Breaker?, now: int) returns (m: Mode)
    requires b != null ==> b.Valid()
    ensures b == null ==> m == Closed
    ensures b != null ==> (m == Closed <==> !Tripped(b.cfg, b.history))
    ensures b != null ==> (m == HalfOpen <==> Tripped(b.cfg, b.history) &&
                                              (AdmittedSinceRecord(b.history) || Admits(b.cfg, b.history, now)))
  {
    if b == null { return Closed; }
    if b.mode == Open && now - b.openedAt >= b.cfg.halfOpenAfter { return HalfOpen; }
    return b.mode;
  }

  /** No recorded outcome strictly between positions i and j. */
  ghost predicate NoRecordBetween(h: seq<Event>, i: int, j: int)
  {
    forall k :: i < k < j && 0 <= k < |h| ==> h[k].Admitted? || h[k].Refused?
  }

  lemma {:induction false} WithoutRecordNothingChanges(h: seq<Event>, i: nat, j: nat)
    requires i < j <= |h|
    requires NoRecordBetween(h, i, j)
    requires h[i].Admitted?
    ensures TrailingFailures(h[..j]) == TrailingFailures(h[..i])
    ensures LastFailure(h[..j]) == LastFailure(h[..i])
    ensures AdmittedSinceRecord(h[..j])
    decreases j
  {
    assert Init(h[..j]) == h[..j - 1];
    if j > i + 1 { WithoutRecordNothingChanges(h, i, j - 1); }
  }

  /** A tripped breaker admits one call, and no second one before an outcome is recorded. */
  lemma OneProbeAtATime(cfg: Config, h: seq<Event>, i: nat, j: nat)
    requires Consistent(cfg, h)
    requires i < j < |h| && h[i].Admitted? && h[j].Admitted?
    requires Tripped(cfg, h[..i])
    ensures !NoRecordBetween(h, i, j)
  {
    ConsistentAt(cfg, h, j);
    if NoRecordBetween(h, i, j) {
      WithoutRecordNothingChanges(h, i, j);
      assert false;
    }
  }

  lemma {:induction false} QuietSuffix(h: seq<Event>, i: nat)
    requires i < |h| && h[i].Failed?
    requires forall k :: i < k < |h| ==> h[k].Admitted? || h[k].Refused?
    ensures LastFailure(h) == Some(h[i].at)
    ensures TrailingFailures(h) == TrailingFailures(h[..i]) + 1
  {
    if |h| == i + 1 {
      assert Init(h) == h[..i];
    } else {
      QuietSuffix(Init(h), i);
      assert Init(h)[..i] == h[..i];
    }
  }

  /** After a failed probe the circuit stays shut for the whole half-open interval. */
  lemma FailedProbeReopens(cfg: Config, h: seq<Event>, i: nat, j: nat)
    requires Consistent(cfg, h)
    requires i < j < |h| && h[i].Failed? && Tripped(cfg, h[..i])
    requires forall k :: i < k < j ==> h[k].Admitted? || h[k].Refused?
    requires h[j].Admitted?
    ensures h[j].at - h[i].at >= cfg.halfOpenAfter
  {
    ConsistentAt(cfg, h, j);
    QuietSuffix(h[..j], i);
    assert h[..j][..i] == h[..i];
  }
}
