/**
 What becomes of every event and every batch, told from the steps of a run alone: who was
 refused, what each post answered, and why a batch was given up.
 */
module AuditHistory {
  import opened AuditSink

  // ---- the Emit side ----

  /** Events waiting, accepted and refused, counting along the steps. */
  datatype Tally = Tally(waiting: nat, accepted: seq<Event>, refused: multiset<Event>)

  /** An Emit is refused when the sink is closed, or when 1024 events wait. */
  function Count(actions: seq<Action>): Tally
  {
    if actions == [] then Tally(0, [], multiset{})
    else
      var init, a := actions[..|actions| - 1], actions[|actions| - 1];
      var t := Count(init);
      if a.Takes? && FromBuffer(a.take) && t.waiting > 0 then t.(waiting := t.waiting - 1)
      else if a.Emits? && a.emit.Send? && t.waiting < 1024 then
        t.(waiting := t.waiting + 1, accepted := t.accepted + [a.emit.event])
      else if a.Emits? && (a.emit.Send? || Closes(Flag) in init) then
        t.(refused := t.refused + multiset{a.emit.event})
      else t
  }

  lemma LastOrBefore(actions: seq<Action>, a: Action)
    requires actions != []
    ensures a in actions <==> a in actions[..|actions| - 1] || a == actions[|actions| - 1]
  {
    assert actions == actions[..|actions| - 1] + [actions[|actions| - 1]];
  }

  /** The flags of the shutdown are the steps that raise them. */
  predicate Raised(sh: Shutdown, actions: seq<Action>)
  {
    && (sh.closed <==> Closes(Flag) in actions) && (sh.done <==> Closes(Signal) in actions)
    && (sh.expired <==> Closes(Expire) in actions)
    && (sh.expired ==> sh.done) && (sh.done ==> sh.closed)
  }

  lemma RaisedStep(cfg: Config, actions: seq<Action>, s: Sink)
    requires actions != [] && Enabled(cfg, s, actions[|actions| - 1])
    requires Raised(s.shut, actions[..|actions| - 1])
    ensures Raised(Act(cfg, s, actions[|actions| - 1]).shut, actions)
  {
    LastOrBefore(actions, Closes(Flag));
    LastOrBefore(actions, Closes(Signal));
    LastOrBefore(actions, Closes(Expire));
  }

  lemma {:induction false} FlagsAreSteps(cfg: Config, actions: seq<Action>)
    requires Run(cfg, actions).At?
    ensures Raised(Run(cfg, actions).sink.shut, actions)
  {
    if actions != [] {
      var n := |actions| - 1;
      FlagsAreSteps(cfg, actions[..n]);
      RaisedStep(cfg, actions, Run(cfg, actions[..n]).sink);
    }
  }

  ghost predicate Tallied(i: Intake, t: Tally)
  {
    |i.buffer| == t.waiting <= 1024 && i.accepted == t.accepted && i.refused == t.refused
  }

  lemma CountStep(cfg: Config, actions: seq<Action>, s: Sink)
    requires actions != []
    requires Run(cfg, actions[..|actions| - 1]) == At(s) && Enabled(cfg, s, actions[|actions| - 1])
    requires Tallied(s.intake, Count(actions[..|actions| - 1]))
    ensures Tallied(Act(cfg, s, actions[|actions| - 1]).intake, Count(actions))
  {
    FlagsAreSteps(cfg, actions[..|actions| - 1]);
  }

  /** In every run: an event is refused exactly when its Emit comes after the sink was closed, or
      finds 1024 events waiting; every other one sent is accepted, in order, and waits until the
      worker takes it. */
  lemma {:induction false} RefusalsHaveCause(cfg: Config, actions: seq<Action>)
    requires Run(cfg, actions).At?
    ensures var i, t := Run(cfg, actions).sink.intake, Count(actions);
            |i.buffer| == t.waiting <= 1024 && i.accepted == t.accepted && i.refused == t.refused
  {
    if actions != [] {
      RefusalsHaveCause(cfg, actions[..|actions| - 1]);
      CountStep(cfg, actions, Run(cfg, actions[..|actions| - 1]).sink);
    }
  }

  // ---- the batches ----

  datatype Answer = Accepted | Transient | Permanent

  /** A batch: whether it was cut after the shutdown signal, whether it failed to encode, what its
      posts were answered, and whether shutdown interrupted a backoff of it. */
  datatype Batch = Batch(late: bool, unencodable: bool, answers: seq<Answer>, interrupted: bool)

  function AnswerTo(a: SettleStep): Answer
  {
    if a.PostSucceeds? then Accepted else if a.PostFails? && a.retryable then Transient else Permanent
  }

  function AfterSettling(b: Batch, a: SettleStep): Batch
  {
    if a.Encode? then b.(unencodable := !a.ok)
    else if a.PostSucceeds? || a.PostFails? then b.(answers := b.answers + [AnswerTo(a)])
    else if a.BackoffInterrupted? then b.(interrupted := true)
    else b
  }

  /** The batches after one more step. */
  function Recorded(h: seq<Batch>, a: Action, signalled: bool): seq<Batch>
  {
    if a == Takes(EndBatch) then h + [Batch(signalled, false, [], false)]
    else if a.Settles? && h != [] then h[..|h| - 1] + [AfterSettling(h[|h| - 1], a.settle)]
    else h
  }

  /** Every batch so far, from the steps alone. */
  function History(actions: seq<Action>): seq<Batch>
  {
    if actions == [] then []
    else
      var init := actions[..|actions| - 1];
      Recorded(History(init), actions[|actions| - 1], Closes(Signal) in init)
  }

  predicate AllTransient(answers: seq<Answer>) { forall i :: 0 <= i < |answers| ==> answers[i].Transient? }

  /** No post follows one that was accepted or permanently refused. */
  predicate RetriedOnlyWhenTransient(b: Batch) { b.answers != [] ==> AllTransient(b.answers[..|b.answers| - 1]) }

  predicate Delivered(b: Batch) { b.answers != [] && b.answers[|b.answers| - 1].Accepted? }

  /** Why a batch that was posted is given up: the last answer was permanent, or all attempts are
      used up, or shutdown interrupted the backoff before the next. */
  predicate GivenUp(cfg: Config, b: Batch)
  {
    b.answers != [] && !Delivered(b) &&
    (b.answers[|b.answers| - 1].Permanent? || |b.answers| == cfg.maxAttempts || b.interrupted)
  }

  predicate WellPosted(cfg: Config, b: Batch)
  {
    && |b.answers| <= cfg.maxAttempts && RetriedOnlyWhenTransient(b)
    && (b.late ==> |b.answers| <= 1) && (b.unencodable ==> b.answers == [])
  }

  /** The worker is done with the batch, but for handing a given up one to the dead letters. */
  predicate Over(cfg: Config, b: Batch) { WellPosted(cfg, b) && (b.unencodable || Delivered(b) || GivenUp(cfg, b)) }

  /** What is known of the batch in the worker's hands. */
  predicate Current(cfg: Config, w: Worker, done: bool, b: Batch)
  {
    WellPosted(cfg, b) &&
    match w
    case Encoding(_, _) => b.answers == [] && !b.unencodable && !b.interrupted
    case Posting(_, attempt, _) =>
      && |b.answers| == attempt - 1 && AllTransient(b.answers) && !b.unencodable && !b.interrupted
      && attempt <= cfg.maxAttempts && (b.late ==> attempt == 1)
    case BackingOff(_, attempt, hurried, _) =>
      && |b.answers| == attempt < cfg.maxAttempts && AllTransient(b.answers) && b.answers != []
      && !b.unencodable && !b.interrupted && (b.late ==> hurried) && (hurried ==> done)
    case Abandoning(_, then_) => if then_.ToExit? then Over(cfg, b) else GivenUp(cfg, b)
    case _ => Over(cfg, b)
  }

  /** Shutdown is the cause of what is put down to it. */
  predicate Signalled(b: Batch, done: bool) { b.late || b.interrupted ==> done }

  ghost predicate HistoryInv(cfg: Config, s: Sink, h: seq<Batch>)
  {
    && |h| == |s.ledger.batches|
    && (forall i :: 0 <= i < |h| - 1 ==> Over(cfg, h[i]))
    && (forall i :: 0 <= i < |h| ==> Signalled(h[i], s.shut.done))
    && (h != [] ==> Current(cfg, s.worker, s.shut.done, h[|h| - 1]))
    && (Unsettled(s.worker) != [] && !Leaving(s.worker) ==> h != [])
    && (s.worker.Encoding? || s.worker.Posting? || s.worker.BackingOff? ==> h != [])
  }

  lemma OneMoreAnswer(answers: seq<Answer>, x: Answer)
    requires AllTransient(answers)
    ensures (answers + [x])[..|answers|] == answers
    ensures x.Transient? ==> AllTransient(answers + [x])
  {
  }

  lemma PostCurrent(cfg: Config, s: Sink, a: SettleStep, b: Batch)
    requires CanSettle(cfg, s, a) && (a.PostSucceeds? || a.PostFails?) && 1 <= s.worker.attempt
    requires Current(cfg, s.worker, s.shut.done, b) && Signalled(b, s.shut.done)
    ensures Current(cfg, WorkerAfterSettle(cfg, s, a), s.shut.done, AfterSettling(b, a))
    ensures Signalled(AfterSettling(b, a), s.shut.done)
  {
    OneMoreAnswer(b.answers, AnswerTo(a));
  }

  lemma SettleCurrent(cfg: Config, s: Sink, a: SettleStep, b: Batch)
    requires cfg.maxAttempts >= 1 && CanSettle(cfg, s, a) && WorkerInv(cfg, s.worker, s.ledger)
    requires Current(cfg, s.worker, s.shut.done, b) && Signalled(b, s.shut.done)
    ensures Current(cfg, WorkerAfterSettle(cfg, s, a), s.shut.done, AfterSettling(b, a))
    ensures Signalled(AfterSettling(b, a), s.shut.done)
  {
    if a.PostSucceeds? || a.PostFails? { PostCurrent(cfg, s, a, b); }
  }

  /** A settling step changes the newest batch alone. */
  lemma SettleKeepsHistory(cfg: Config, s: Sink, a: SettleStep, h: seq<Batch>)
    requires cfg.maxAttempts >= 1 && CanSettle(cfg, s, a) && WorkerInv(cfg, s.worker, s.ledger)
    requires HistoryInv(cfg, s, h)
    ensures HistoryInv(cfg, Settle(cfg, s, a),
                       if h != [] then h[..|h| - 1] + [AfterSettling(h[|h| - 1], a)] else h)
  {
    if h != [] { SettleCurrent(cfg, s, a, h[|h| - 1]); }
  }

  lemma TakeCurrent(cfg: Config, s: Sink, a: TakeStep, b: Batch)
    requires CanTake(s, a) && !a.EndBatch? && Current(cfg, s.worker, s.shut.done, b)
    ensures Current(cfg, WorkerAfterTake(s, a), s.shut.done, b)
  {
  }

  lemma TakeKeepsHistory(cfg: Config, s: Sink, a: TakeStep, h: seq<Batch>)
    requires CanTake(s, a) && HistoryInv(cfg, s, h)
    requires HasThen(s.worker) && s.worker.then_.ToExit? ==> s.worker.Abandoning?
    ensures HistoryInv(cfg, Take(s, a), if a.EndBatch? then h + [Batch(s.shut.done, false, [], false)] else h)
  {
    if h != [] && !a.EndBatch? { TakeCurrent(cfg, s, a, h[|h| - 1]); }
  }

  lemma CloseKeepsHistory(cfg: Config, s: Sink, a: CloseStep, h: seq<Batch>)
    requires HistoryInv(cfg, s, h)
    ensures HistoryInv(cfg, s.(shut := Close(s.shut, a)), h)
  {
  }

  lemma ActKeepsHistory(cfg: Config, s: Sink, a: Action, h: seq<Batch>)
    requires cfg.maxAttempts >= 1 && Enabled(cfg, s, a) && WorkerInv(cfg, s.worker, s.ledger) && HistoryInv(cfg, s, h)
    ensures HistoryInv(cfg, Act(cfg, s, a), Recorded(h, a, s.shut.done))
  {
    match a
    case Emits(_) =>
    case Closes(c) => CloseKeepsHistory(cfg, s, c, h);
    case Takes(t) => TakeKeepsHistory(cfg, s, t, h);
    case Settles(t) => SettleKeepsHistory(cfg, s, t, h);
  }

  lemma {:induction false} RunKeepsHistory(cfg: Config, actions: seq<Action>)
    requires cfg.maxAttempts >= 1 && Run(cfg, actions).At?
    ensures HistoryInv(cfg, Run(cfg, actions).sink, History(actions))
  {
    if actions != [] {
      var n := |actions| - 1;
      RunKeepsHistory(cfg, actions[..n]);
      RunKeepsInv(cfg, actions[..n]);
      FlagsAreSteps(cfg, actions[..n]);
      ActKeepsHistory(cfg, Run(cfg, actions[..n]).sink, actions[n], History(actions[..n]));
    }
  }

  /** The worker is not busy with the newest batch. */
  predicate Idle(w: Worker) { !w.Encoding? && !w.Posting? && !w.BackingOff? }

  lemma BatchIsKnown(cfg: Config, s: Sink, h: seq<Batch>, i: nat)
    requires HistoryInv(cfg, s, h) && i < |h|
    ensures WellPosted(cfg, h[i]) && Signalled(h[i], s.shut.done)
    ensures i < |h| - 1 || Idle(s.worker) ==> Over(cfg, h[i])
  {
    if i == |h| - 1 { CurrentIsKnown(cfg, s.worker, s.shut.done, h[i]); }
  }

  lemma CurrentIsKnown(cfg: Config, w: Worker, done: bool, b: Batch)
    requires Current(cfg, w, done, b)
    ensures WellPosted(cfg, b) && (Idle(w) ==> Over(cfg, b))
  {
  }

  /** In every run: each batch the worker is done with failed to encode, or was delivered, or was
      given up because its last answer was permanent, or all attempts were used up, or shutdown
      interrupted a backoff; no post follows one that was accepted or permanently refused; and
      a batch cut after the shutdown signal is posted at most once. */
  lemma BatchesAreRetriedOut(cfg: Config, actions: seq<Action>, i: nat)
    requires cfg.maxAttempts >= 1 && Run(cfg, actions).At? && i < |History(actions)|
    ensures |History(actions)| == |Run(cfg, actions).sink.ledger.batches|
    ensures var b := History(actions)[i];
            && RetriedOnlyWhenTransient(b) && |b.answers| <= cfg.maxAttempts
            && (b.late ==> |b.answers| <= 1) && (b.unencodable ==> b.answers == [])
            && (b.interrupted ==> Closes(Signal) in actions)
            && (i < |History(actions)| - 1 || Idle(Run(cfg, actions).sink.worker) ==>
                  b.unencodable || Delivered(b) || GivenUp(cfg, b))
  {
    RunKeepsHistory(cfg, actions);
    FlagsAreSteps(cfg, actions);
    BatchIsKnown(cfg, Run(cfg, actions).sink, History(actions), i);
  }

  // ---- what is reported ----

  /** The events of the batches whose last post was accepted. */
  function DeliveredOf(batches: seq<seq<Event>>, h: seq<Batch>): multiset<Event>
    requires |batches| == |h|
  {
    if h == [] then multiset{}
    else
      var n := |h| - 1;
      DeliveredOf(batches[..n], h[..n]) + if Delivered(h[n]) then multiset(batches[n]) else multiset{}
  }

  lemma DeliveredSnoc(batches: seq<seq<Event>>, h: seq<Batch>, batch: seq<Event>, b: Batch)
    requires |batches| == |h|
    ensures DeliveredOf(batches + [batch], h + [b]) ==
            DeliveredOf(batches, h) + if Delivered(b) then multiset(batch) else multiset{}
  {
    assert (batches + [batch])[..|h|] == batches && (h + [b])[..|h|] == h;
  }

  /** The batch in the worker's hands is the newest one. */
  predicate HoldsNewest(w: Worker, l: Ledger)
  {
    w.Encoding? || w.Posting? || w.BackingOff? ==> l.batches != [] && w.batch == l.batches[|l.batches| - 1]
  }

  lemma ActHoldsNewest(cfg: Config, s: Sink, a: Action)
    requires Enabled(cfg, s, a) && HoldsNewest(s.worker, s.ledger)
    ensures HoldsNewest(Act(cfg, s, a).worker, Act(cfg, s, a).ledger)
  {
  }

  lemma {:induction false} NewestIsHeld(cfg: Config, actions: seq<Action>)
    requires Run(cfg, actions).At?
    ensures HoldsNewest(Run(cfg, actions).sink.worker, Run(cfg, actions).sink.ledger)
  {
    if actions != [] {
      var n := |actions| - 1;
      NewestIsHeld(cfg, actions[..n]);
      ActHoldsNewest(cfg, Run(cfg, actions[..n]).sink, actions[n]);
    }
  }

  lemma LastReplaced(batches: seq<seq<Event>>, h: seq<Batch>, b: Batch)
    requires |batches| == |h| > 0
    ensures var n := |h| - 1;
            DeliveredOf(batches, h[..n] + [b]) ==
            DeliveredOf(batches[..n], h[..n]) + if Delivered(b) then multiset(batches[n]) else multiset{}
  {
    var n := |h| - 1;
    assert batches[..n] + [batches[n]] == batches;
    DeliveredSnoc(batches[..n], h[..n], batches[n], b);
  }

  lemma SettleReports(cfg: Config, s: Sink, a: SettleStep)
    requires CanSettle(cfg, s, a)
    ensures Settle(cfg, s, a).fate.delivered ==
            s.fate.delivered + if a.PostSucceeds? then multiset(s.worker.batch) else multiset{}
    ensures a.PostSucceeds? ==> s.worker.Posting?
  {
  }

  lemma SettleDelivers(cfg: Config, s: Sink, a: SettleStep, h: seq<Batch>)
    requires CanSettle(cfg, s, a) && HoldsNewest(s.worker, s.ledger) && |s.ledger.batches| == |h| > 0
    requires Current(cfg, s.worker, s.shut.done, h[|h| - 1])
    requires s.fate.delivered == DeliveredOf(s.ledger.batches, h)
    ensures Settle(cfg, s, a).fate.delivered ==
            DeliveredOf(s.ledger.batches, h[..|h| - 1] + [AfterSettling(h[|h| - 1], a)])
  {
    SettlingDelivers(s, a, h[|h| - 1], cfg);
    SettleReports(cfg, s, a);
    LastSettled(s.ledger.batches, h, AfterSettling(h[|h| - 1], a), a.PostSucceeds?);
  }

  lemma LastSettled(batches: seq<seq<Event>>, h: seq<Batch>, b: Batch, accepted: bool)
    requires |batches| == |h| > 0 && (accepted ==> !Delivered(h[|h| - 1]))
    requires Delivered(b) <==> Delivered(h[|h| - 1]) || accepted
    ensures DeliveredOf(batches, h[..|h| - 1] + [b]) ==
            DeliveredOf(batches, h) + if accepted then multiset(batches[|h| - 1]) else multiset{}
  {
    LastReplaced(batches, h, b);
  }

  /** An accepted post delivers a batch that was not delivered before; nothing else changes that. */
  lemma SettlingDelivers(s: Sink, a: SettleStep, b: Batch, cfg: Config)
    requires CanSettle(cfg, s, a) && Current(cfg, s.worker, s.shut.done, b)
    ensures Delivered(AfterSettling(b, a)) <==> Delivered(b) || a.PostSucceeds?
    ensures a.PostSucceeds? ==> !Delivered(b)
  {
  }

  /** In every run: the events reported as delivered are those of the batches whose last post
      was accepted. */
  lemma {:induction false} DeliveredWereAccepted(cfg: Config, actions: seq<Action>)
    requires cfg.maxAttempts >= 1 && Run(cfg, actions).At?
    ensures |Run(cfg, actions).sink.ledger.batches| == |History(actions)|
    ensures Run(cfg, actions).sink.fate.delivered ==
            DeliveredOf(Run(cfg, actions).sink.ledger.batches, History(actions))
  {
    RunKeepsHistory(cfg, actions);
    if actions != [] {
      var n := |actions| - 1;
      DeliveredWereAccepted(cfg, actions[..n]);
      RunKeepsHistory(cfg, actions[..n]);
      NewestIsHeld(cfg, actions[..n]);
      DeliveredStep(cfg, actions, Run(cfg, actions[..n]).sink);
    }
  }

  lemma DeliveredStep(cfg: Config, actions: seq<Action>, s: Sink)
    requires actions != [] && Run(cfg, actions[..|actions| - 1]) == At(s) && Enabled(cfg, s, actions[|actions| - 1])
    requires HoldsNewest(s.worker, s.ledger)
    requires var h := History(actions[..|actions| - 1]);
             HistoryInv(cfg, s, h) && s.fate.delivered == DeliveredOf(s.ledger.batches, h)
    requires |Act(cfg, s, actions[|actions| - 1]).ledger.batches| == |History(actions)|
    ensures var s' := Act(cfg, s, actions[|actions| - 1]);
            s'.fate.delivered == DeliveredOf(s'.ledger.batches, History(actions))
  {
    var n := |actions| - 1;
    var h := History(actions[..n]);
    if actions[n] == Takes(EndBatch) {
      DeliveredSnoc(s.ledger.batches, h, s.worker.batch, Batch(Closes(Signal) in actions[..n], false, [], false));
    } else if actions[n].Settles? {
      if h != [] { SettleDelivers(cfg, s, actions[n].settle, h); } else { SettleReports(cfg, s, actions[n].settle); }
    }
  }

  function Times(actions: seq<Action>, a: Action): nat
  {
    if actions == [] then 0
    else Times(actions[..|actions| - 1], a) + if actions[|actions| - 1] == a then 1 else 0
  }

  /** In every run: as many events are reported dead-lettered as lines were written. */
  lemma {:induction false} DeadLettersWereWritten(cfg: Config, actions: seq<Action>)
    requires Run(cfg, actions).At?
    ensures |Run(cfg, actions).sink.fate.deadLettered| == Times(actions, Settles(DeadLetterOne(true)))
    ensures !cfg.hasDeadLetter ==> Run(cfg, actions).sink.fate.deadLettered == multiset{}
  {
    if actions != [] { DeadLettersWereWritten(cfg, actions[..|actions| - 1]); }
  }

  // ---- the worker ----

  /** The worker is past its loop. */
  predicate Shutting(w: Worker)
  {
    w.Draining? || w.TakingRest? || w.Exited? || (HasThen(w) && !w.then_.ToLoop?)
  }

  /** The drain window is spent. */
  predicate GaveUpDraining(w: Worker) { w.TakingRest? || (HasThen(w) && w.then_.ToExit?) }

  ghost predicate LeavesInv(s: Sink)
  {
    && (Shutting(s.worker) ==> s.shut.done)
    && (GaveUpDraining(s.worker) || s.ledger.leftover != [] ==> s.shut.expired)
  }

  lemma ActKeepsLeaves(cfg: Config, s: Sink, a: Action)
    requires Enabled(cfg, s, a) && LeavesInv(s) && WorkerInv(cfg, s.worker, s.ledger)
    ensures LeavesInv(Act(cfg, s, a))
  {
  }

  /** In every run: the worker leaves its loop only after the shutdown signal, and leaves events
      unposted only once the drain window has expired. */
  lemma {:induction false} WorkerLeavesOnSignal(cfg: Config, actions: seq<Action>)
    requires cfg.maxAttempts >= 1 && Run(cfg, actions).At?
    ensures var s := Run(cfg, actions).sink;
            && (Shutting(s.worker) ==> Closes(Signal) in actions)
            && (s.ledger.leftover != [] ==> Closes(Expire) in actions)
    ensures LeavesInv(Run(cfg, actions).sink)
  {
    FlagsAreSteps(cfg, actions);
    if actions != [] {
      var n := |actions| - 1;
      WorkerLeavesOnSignal(cfg, actions[..n]);
      RunKeepsInv(cfg, actions[..n]);
      ActKeepsLeaves(cfg, Run(cfg, actions[..n]).sink, actions[n]);
    }
  }

  lemma {:induction false} RunPrefix(cfg: Config, actions: seq<Action>, n: nat)
    requires Run(cfg, actions).At? && n <= |actions|
    ensures Run(cfg, actions[..n]).At?
  {
    if n == |actions| {
      assert actions[..n] == actions;
    } else {
      var init := actions[..|actions| - 1];
      assert init[..n] == actions[..n];
      RunPrefix(cfg, init, n);
    }
  }

  /** The sink when step i comes. */
  function SinkAt(cfg: Config, actions: seq<Action>, i: nat): Sink
    requires i <= |actions|
  {
    var r := Run(cfg, actions[..i]);
    if r.At? then r.sink else OPENED
  }

  /** Every action of a run was possible when it came. */
  lemma WasEnabled(cfg: Config, actions: seq<Action>, i: nat)
    requires Run(cfg, actions).At? && i < |actions|
    ensures Run(cfg, actions[..i]).At? && Enabled(cfg, SinkAt(cfg, actions, i), actions[i])
  {
    RunPrefix(cfg, actions, i + 1);
    assert actions[..i + 1][..i] == actions[..i];
  }

  lemma SinkIsKnown(cfg: Config, actions: seq<Action>, i: nat)
    requires cfg.maxAttempts >= 1 && Run(cfg, actions).At? && i < |actions|
    ensures var s := SinkAt(cfg, actions, i);
            && WorkerInv(cfg, s.worker, s.ledger) && Tallied(s.intake, Count(actions[..i]))
            && (s.shut.expired <==> Closes(Expire) in actions[..i])
  {
    WasEnabled(cfg, actions, i);
    RunKeepsInv(cfg, actions[..i]);
    FlagsAreSteps(cfg, actions[..i]);
    RefusalsHaveCause(cfg, actions[..i]);
  }

  lemma ActStaysShutting(cfg: Config, s: Sink, a: Action)
    requires Enabled(cfg, s, a) && Shutting(s.worker)
    ensures Shutting(Act(cfg, s, a).worker)
  {
  }

  /** In every run: once it has left its loop the worker never returns to it, so every later batch
      comes from the drain. */
  lemma {:induction false} LeavingIsFinal(cfg: Config, actions: seq<Action>, k: nat)
    requires Run(cfg, actions).At? && k <= |actions|
    requires Run(cfg, actions[..k]).At? && Shutting(Run(cfg, actions[..k]).sink.worker)
    ensures Shutting(Run(cfg, actions).sink.worker)
  {
    if k == |actions| {
      assert actions[..k] == actions;
    } else {
      var init := actions[..|actions| - 1];
      assert init[..k] == actions[..k];
      LeavingIsFinal(cfg, init, k);
      ActStaysShutting(cfg, Run(cfg, init).sink, actions[|actions| - 1]);
    }
  }

  lemma DrainChoice(s: Sink, t: Tally, a: TakeStep)
    requires CanTake(s, a) && Tallied(s.intake, t) && (a.DrainReceive? || a.DrainEmpty? || a.DrainExpired?)
    ensures s.shut.expired <==> a.DrainExpired?
    ensures a.DrainEmpty? ==> t.waiting == 0
  {
  }

  /** In every run: the drain takes nothing once its window has expired, and ends before that
      only when nothing waits. */
  lemma DrainEndsOnTime(cfg: Config, actions: seq<Action>, i: nat)
    requires cfg.maxAttempts >= 1 && Run(cfg, actions).At? && i < |actions|
    requires actions[i].Takes?
    requires actions[i].take.DrainReceive? || actions[i].take.DrainEmpty? || actions[i].take.DrainExpired?
    ensures Closes(Expire) in actions[..i] <==> actions[i].take.DrainExpired?
    ensures actions[i].take.DrainEmpty? ==> Count(actions[..i]).waiting == 0
  {
    WasEnabled(cfg, actions, i);
    SinkIsKnown(cfg, actions, i);
    DrainChoice(SinkAt(cfg, actions, i), Count(actions[..i]), actions[i].take);
  }

  /** In every run: a batch is cut only when it is full or nothing waits. */
  lemma BatchesAreFull(cfg: Config, actions: seq<Action>, i: nat)
    requires cfg.maxAttempts >= 1 && Run(cfg, actions).At? && i < |actions| && actions[i] == Takes(EndBatch)
    ensures SinkAt(cfg, actions, i).worker.Collecting?
    ensures |SinkAt(cfg, actions, i).worker.batch| == 100 || Count(actions[..i]).waiting == 0
  {
    WasEnabled(cfg, actions, i);
    SinkIsKnown(cfg, actions, i);
  }

  /** In every run: the worker can always take its next step, unless it waits with nothing to
      take and no signal to leave, or has exited. A signal it can follow at once, whatever waits. */
  lemma WorkerIsNeverStuck(cfg: Config, actions: seq<Action>) returns (a: Action)
    requires cfg.maxAttempts >= 1 && Run(cfg, actions).At?
    requires var s := Run(cfg, actions).sink;
             !s.worker.Exited? && (s.worker.Waiting? ==> s.intake.buffer != [] || s.shut.done)
    ensures Enabled(cfg, Run(cfg, actions).sink, a) && (a.Takes? || a.Settles?)
    ensures Run(cfg, actions).sink.worker.Waiting? && Closes(Signal) in actions ==> a == Takes(SeeDone)
  {
    FlagsAreSteps(cfg, actions);
    RunKeepsHistory(cfg, actions);
    a := NextStep(cfg, Run(cfg, actions).sink);
  }

  lemma NextStep(cfg: Config, s: Sink) returns (a: Action)
    requires !s.worker.Exited? && (s.worker.Waiting? ==> s.intake.buffer != [] || s.shut.done)
    requires s.worker.BackingOff? && s.worker.hurried ==> s.shut.done
    ensures Enabled(cfg, s, a) && (a.Takes? || a.Settles?)
    ensures s.worker.Waiting? && s.shut.done ==> a == Takes(SeeDone)
  {
    var more := s.intake.buffer != [];
    match s.worker
    case Waiting => a := Takes(if s.shut.done then SeeDone else Receive);
    case Collecting(batch, _) => a := Takes(if |batch| < BATCH_SIZE && more then Gather else EndBatch);
    case Encoding(_, _) => a := Settles(Encode(true));
    case Posting(_, _, _) => a := Settles(PostSucceeds);
    case BackingOff(_, _, hurried, _) => a := Settles(if hurried then BackoffInterrupted else BackoffEnds);
    case Abandoning(batch, _) =>
      a := Settles(if batch == [] then Finish else if cfg.hasDeadLetter then DeadLetterOne(true) else DropAll);
    case Draining => a := Takes(if s.shut.expired then DrainExpired else if more then DrainReceive else DrainEmpty);
    case TakingRest(_) => a := Takes(if more then RestTake else RestEnd);
  }
}
