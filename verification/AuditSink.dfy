/**
 The asynchronous audit sink: emitters fill a bounded buffer, one worker posts batches with
 retries, and Close drains what is left. The steps of all parties interleave freely.
 */
module AuditSink {
  import opened Sequences

  type Event = string

  const BUFFER_SIZE := 1024
  const BATCH_SIZE := 100

  datatype Config = Config(maxAttempts: nat, hasDeadLetter: bool)

  /** Where the worker goes once the batch in its hands is settled. */
  datatype Then = ToLoop | ToDrain | ToExit

  datatype Worker =
    | Waiting                                              // run: select on the buffer and done
    | Collecting(batch: seq<Event>, then_: Then)
    | Encoding(batch: seq<Event>, then_: Then)
    | Posting(batch: seq<Event>, attempt: nat, then_: Then)
    | BackingOff(batch: seq<Event>, attempt: nat, hurried: bool, then_: Then)  // hurried: done was already closed
    | Abandoning(batch: seq<Event>, then_: Then)
    | Draining                                             // drain: top of its delivery loop
    | TakingRest(batch: seq<Event>)                        // drain: the window is spent
    | Exited

  /** The Emit side. pending are events of Emit calls that saw the sink open and have not sent
      yet; refused ones were reported dropped by Emit. */
  datatype Intake = Intake(buffer: seq<Event>, pending: multiset<Event>, emitted: multiset<Event>,
                           accepted: seq<Event>, refused: multiset<Event>)

  datatype Shutdown = Shutdown(closed: bool, done: bool, expired: bool)

  /** The worker's history: the batches it cut, how often each was posted, and what a spent
      drain window left over. */
  datatype Ledger = Ledger(batches: seq<seq<Event>>, posts: seq<nat>, leftover: seq<Event>)

  /** What was reported of the events taken; lost ones were reported dropped by the worker. */
  datatype Fate = Fate(delivered: multiset<Event>, deadLettered: multiset<Event>, lost: multiset<Event>)

  datatype Sink = Sink(intake: Intake, shut: Shutdown, worker: Worker, ledger: Ledger, fate: Fate)

  const OPENED := Sink(Intake([], multiset{}, multiset{}, [], multiset{}), Shutdown(false, false, false),
                       Waiting, Ledger([], [], []), Fate(multiset{}, multiset{}, multiset{}))

  datatype EmitStep = Check(event: Event) | Send(event: Event)
  datatype CloseStep = Flag | Signal | Expire
  datatype TakeStep =
    | Receive | Gather | EndBatch | SeeDone
    | DrainReceive | DrainEmpty | DrainExpired | RestTake | RestEnd
  datatype SettleStep =
    | Encode(ok: bool)
    | PostSucceeds | PostFails(retryable: bool) | BackoffEnds | BackoffInterrupted
    | DropAll | DeadLetterOne(written: bool) | Finish

  datatype Action =
    | Emits(emit: EmitStep)
    | Closes(close: CloseStep)
    | Takes(take: TakeStep)
    | Settles(settle: SettleStep)

  function Resume(t: Then): Worker
  {
    match t
    case ToLoop => Waiting
    case ToDrain => Draining
    case ToExit => Exited
  }

  predicate CanTake(s: Sink, a: TakeStep)
  {
    var w, more := s.worker, s.intake.buffer != [];
    match a
    case Receive => w.Waiting? && more
    case SeeDone => w.Waiting? && s.shut.done
    case Gather => w.Collecting? && |w.batch| < BATCH_SIZE && more
    case EndBatch => w.Collecting? && (|w.batch| >= BATCH_SIZE || !more)
    case DrainReceive => w.Draining? && !s.shut.expired && more
    case DrainEmpty => w.Draining? && !s.shut.expired && !more
    case DrainExpired => w.Draining? && s.shut.expired
    case RestTake => w.TakingRest? && more
    case RestEnd => w.TakingRest? && !more
  }

  predicate CanSettle(cfg: Config, s: Sink, a: SettleStep)
  {
    var w := s.worker;
    match a
    case Encode(_) => w.Encoding?
    case PostSucceeds => w.Posting?
    case PostFails(_) => w.Posting?
    case BackoffEnds => w.BackingOff? && !w.hurried
    case BackoffInterrupted => w.BackingOff? && s.shut.done
    case DropAll => w.Abandoning? && !cfg.hasDeadLetter && w.batch != []
    case DeadLetterOne(_) => w.Abandoning? && cfg.hasDeadLetter && w.batch != []
    case Finish => w.Abandoning? && w.batch == []
  }

  predicate Enabled(cfg: Config, s: Sink, a: Action)
  {
    match a
    case Emits(e) => e.Send? ==> e.event in s.intake.pending
    case Closes(c) => (c.Signal? ==> s.shut.closed) && (c.Expire? ==> s.shut.done)
    case Takes(t) => CanTake(s, t)
    case Settles(t) => CanSettle(cfg, s, t)
  }

  function Emit(i: Intake, closed: bool, a: EmitStep): Intake
    requires a.Send? ==> a.event in i.pending
  {
    var e := a.event;
    match a
    case Check(_) =>
      if closed then i.(emitted := i.emitted + multiset{e}, refused := i.refused + multiset{e})
      else i.(emitted := i.emitted + multiset{e}, pending := i.pending + multiset{e})
    case Send(_) =>
      if |i.buffer| < BUFFER_SIZE then
        i.(pending := i.pending - multiset{e}, buffer := i.buffer + [e], accepted := i.accepted + [e])
      else i.(pending := i.pending - multiset{e}, refused := i.refused + multiset{e})
  }

  function Close(sh: Shutdown, a: CloseStep): Shutdown
  {
    match a
    case Flag => sh.(closed := true)
    case Signal => sh.(done := true)
    case Expire => sh.(expired := true)
  }

  predicate FromBuffer(a: TakeStep) { a.Receive? || a.Gather? || a.DrainReceive? || a.RestTake? }

  function WorkerAfterTake(s: Sink, a: TakeStep): Worker
    requires CanTake(s, a)
  {
    var w := s.worker;
    match a
    case Receive => Collecting([s.intake.buffer[0]], ToLoop)
    case SeeDone => Draining
    case Gather => Collecting(w.batch + [s.intake.buffer[0]], w.then_)
    case EndBatch => Encoding(w.batch, w.then_)
    case DrainReceive => Collecting([s.intake.buffer[0]], ToDrain)
    case DrainEmpty => Exited
    case DrainExpired => TakingRest([])
    case RestTake => TakingRest(w.batch + [s.intake.buffer[0]])
    case RestEnd => Abandoning(w.batch, ToExit)
  }

  function LedgerAfterTake(s: Sink, a: TakeStep): Ledger
    requires CanTake(s, a)
  {
    var l := s.ledger;
    if a.EndBatch? then Ledger(l.batches + [s.worker.batch], l.posts + [0], l.leftover)
    else if a.RestEnd? then Ledger(l.batches, l.posts, l.leftover + s.worker.batch)
    else l
  }

  function Take(s: Sink, a: TakeStep): Sink
    requires CanTake(s, a)
  {
    Sink(if FromBuffer(a) then s.intake.(buffer := s.intake.buffer[1..]) else s.intake,
         s.shut, WorkerAfterTake(s, a), LedgerAfterTake(s, a), s.fate)
  }

  function WorkerAfterSettle(cfg: Config, s: Sink, a: SettleStep): Worker
    requires CanSettle(cfg, s, a)
  {
    var w := s.worker;
    match a
    case Encode(ok) => if ok then Posting(w.batch, 1, w.then_) else Resume(w.then_)
    case PostSucceeds => Resume(w.then_)
    case PostFails(retryable) =>
      if !retryable || w.attempt >= cfg.maxAttempts then Abandoning(w.batch, w.then_)
      else BackingOff(w.batch, w.attempt, s.shut.done, w.then_)
    case BackoffEnds => Posting(w.batch, w.attempt + 1, w.then_)
    case BackoffInterrupted => Abandoning(w.batch, w.then_)
    case DropAll => Abandoning([], w.then_)
    case DeadLetterOne(_) => Abandoning(w.batch[1..], w.then_)
    case Finish => Resume(w.then_)
  }

  function FateAfterSettle(cfg: Config, s: Sink, a: SettleStep): Fate
    requires CanSettle(cfg, s, a)
  {
    var w, f := s.worker, s.fate;
    match a
    case Encode(ok) => if ok then f else f.(lost := f.lost + multiset(w.batch))
    case PostSucceeds => f.(delivered := f.delivered + multiset(w.batch))
    case DropAll => f.(lost := f.lost + multiset(w.batch))
    case DeadLetterOne(written) =>
      if written then f.(deadLettered := f.deadLettered + multiset{w.batch[0]})
      else f.(lost := f.lost + multiset{w.batch[0]})
    case _ => f
  }

  /** One more post of the newest batch. */
  function Posted(posts: seq<nat>): seq<nat>
  {
    if posts == [] then posts else posts[..|posts| - 1] + [posts[|posts| - 1] + 1]
  }

  function Settle(cfg: Config, s: Sink, a: SettleStep): Sink
    requires CanSettle(cfg, s, a)
  {
    Sink(s.intake, s.shut, WorkerAfterSettle(cfg, s, a),
         if a.PostSucceeds? || a.PostFails? then s.ledger.(posts := Posted(s.ledger.posts)) else s.ledger,
         FateAfterSettle(cfg, s, a))
  }

  function Act(cfg: Config, s: Sink, a: Action): Sink
    requires Enabled(cfg, s, a)
  {
    match a
    case Emits(e) => s.(intake := Emit(s.intake, s.shut.closed, e))
    case Closes(c) => s.(shut := Close(s.shut, c))
    case Takes(t) => Take(s, t)
    case Settles(t) => Settle(cfg, s, t)
  }

  datatype Reached = Impossible | At(sink: Sink)

  function Run(cfg: Config, actions: seq<Action>): Reached
  {
    if actions == [] then At(OPENED)
    else
      var before := Run(cfg, actions[..|actions| - 1]);
      if before.Impossible? || !Enabled(cfg, before.sink, actions[|actions| - 1]) then Impossible
      else At(Act(cfg, before.sink, actions[|actions| - 1]))
  }

  // ---- what every step keeps ----

  /** Events the worker has taken from the buffer and not yet put into a batch. */
  function Collected(w: Worker): seq<Event> { if w.Collecting? || w.TakingRest? then w.batch else [] }

  /** Events of the current batch whose fate is not decided. */
  function Unsettled(w: Worker): seq<Event>
  {
    if w.Encoding? || w.Posting? || w.BackingOff? || w.Abandoning? then w.batch else []
  }

  /** Everything in the worker's hands. */
  function InHand(w: Worker): multiset<Event> { multiset(Collected(w)) + multiset(Unsettled(w)) }

  /** Everything that left the buffer for good, in order. */
  function Cut(l: Ledger): seq<Event> { Flatten(l.batches) + l.leftover }

  function Known(f: Fate): multiset<Event> { f.delivered + f.deadLettered + f.lost }

  function Dropped(s: Sink): multiset<Event> { s.intake.refused + s.fate.lost }

  /** Emit: every event was refused, or accepted, or is about to be sent. */
  ghost predicate EmitInv(i: Intake)
  {
    i.emitted == i.refused + multiset(i.accepted) + i.pending
  }

  /** The worker takes events in the order they were accepted and forgets none. */
  ghost predicate OrderInv(s: Sink)
  {
    s.intake.accepted == Cut(s.ledger) + Collected(s.worker) + s.intake.buffer
  }

  /** Everything taken was delivered, dead-lettered or lost, or is still unsettled. */
  ghost predicate FateInv(s: Sink)
  {
    multiset(Cut(s.ledger)) == Known(s.fate) + multiset(Unsettled(s.worker))
  }

  ghost predicate LedgerInv(cfg: Config, l: Ledger)
  {
    && |l.posts| == |l.batches|
    && (forall i :: 0 <= i < |l.batches| ==> 1 <= |l.batches[i]| <= BATCH_SIZE)
    && (forall i :: 0 <= i < |l.posts| ==> l.posts[i] <= cfg.maxAttempts)
  }

  ghost predicate LastPosts(l: Ledger, n: int) { l.posts != [] && l.posts[|l.posts| - 1] == n }

  predicate HasThen(w: Worker) { w.Collecting? || w.Encoding? || w.Posting? || w.BackingOff? || w.Abandoning? }

  /** The worker has looked at the buffer for the last time. */
  predicate Leaving(w: Worker) { w.Exited? || (w.Abandoning? && w.then_.ToExit?) }

  ghost predicate WorkerInv(cfg: Config, w: Worker, l: Ledger)
  {
    && (w.Collecting? ==> 1 <= |w.batch| <= BATCH_SIZE)
    && (w.Encoding? ==> LastPosts(l, 0))
    && (w.Posting? ==> 1 <= w.attempt <= cfg.maxAttempts && LastPosts(l, w.attempt - 1))
    && (w.BackingOff? ==> 1 <= w.attempt < cfg.maxAttempts && LastPosts(l, w.attempt))
    && (l.leftover != [] ==> Leaving(w))
    && (HasThen(w) && w.then_.ToExit? ==> w.Abandoning?)
  }

  ghost predicate Inv(cfg: Config, s: Sink)
  {
    EmitInv(s.intake) && OrderInv(s) && FateInv(s) && LedgerInv(cfg, s.ledger) && WorkerInv(cfg, s.worker, s.ledger)
  }

  lemma MoveHead(a: seq<Event>, b: seq<Event>, buffer: seq<Event>)
    requires buffer != []
    ensures a + (b + [buffer[0]]) + buffer[1..] == a + b + buffer
  {
    assert buffer == [buffer[0]] + buffer[1..];
  }

  lemma HeadMultiset(b: seq<Event>)
    requires b != []
    ensures multiset(b) == multiset{b[0]} + multiset(b[1..])
  {
    assert b == [b[0]] + b[1..];
  }

  lemma EmitKeeps(i: Intake, closed: bool, a: EmitStep)
    requires (a.Send? ==> a.event in i.pending) && EmitInv(i)
    ensures EmitInv(Emit(i, closed, a))
  {
    if a.Send? {
      assert i.pending - multiset{a.event} + multiset{a.event} == i.pending;
      assert multiset(i.accepted + [a.event]) == multiset(i.accepted) + multiset{a.event};
    }
  }

  lemma EmitKeepsOrder(i: Intake, closed: bool, a: EmitStep, front: seq<Event>)
    requires (a.Send? ==> a.event in i.pending) && i.accepted == front + i.buffer
    ensures Emit(i, closed, a).accepted == front + Emit(i, closed, a).buffer
  {
    assert front + (i.buffer + [a.event]) == front + i.buffer + [a.event];
  }

  lemma EndBatchCut(l: Ledger, batch: seq<Event>)
    requires l.leftover == []
    ensures Cut(Ledger(l.batches + [batch], l.posts + [0], l.leftover)) == Cut(l) + batch
  {
    FlattenSnoc(l.batches, batch);
  }

  /** A batch is cut exactly from what was collected. */
  lemma TakeMovesCut(s: Sink, a: TakeStep)
    requires CanTake(s, a) && (s.ledger.leftover != [] ==> Leaving(s.worker))
    ensures Cut(LedgerAfterTake(s, a)) ==
            if a.EndBatch? || a.RestEnd? then Cut(s.ledger) + s.worker.batch else Cut(s.ledger)
  {
    if a.EndBatch? {
      EndBatchCut(s.ledger, s.worker.batch);
    }
  }

  /** A step that takes from the buffer puts the oldest event behind what is collected. */
  lemma TakenIsCollected(s: Sink, a: TakeStep)
    requires CanTake(s, a) && FromBuffer(a)
    ensures s.intake.buffer != []
    ensures Collected(WorkerAfterTake(s, a)) == Collected(s.worker) + [s.intake.buffer[0]]
    ensures !a.EndBatch? && !a.RestEnd?
  {
  }

  /** Any other step leaves what is collected alone, or cuts it off. */
  lemma CutIsCollected(s: Sink, a: TakeStep)
    requires CanTake(s, a) && !FromBuffer(a)
    ensures Collected(WorkerAfterTake(s, a)) == []
    ensures Collected(s.worker) == if a.EndBatch? || a.RestEnd? then s.worker.batch else []
  {
  }

  lemma TakeKeepsOrder(s: Sink, a: TakeStep)
    requires CanTake(s, a) && OrderInv(s) && (s.ledger.leftover != [] ==> Leaving(s.worker))
    ensures OrderInv(Take(s, a))
  {
    TakeMovesCut(s, a);
    if FromBuffer(a) {
      TakenIsCollected(s, a);
      MoveHead(Cut(s.ledger), Collected(s.worker), s.intake.buffer);
    } else {
      CutIsCollected(s, a);
      NothingMoves(Cut(s.ledger), Collected(s.worker));
    }
  }

  lemma NothingMoves(cut: seq<Event>, collected: seq<Event>)
    ensures cut + collected + [] == cut + collected && cut + [] == cut
  {
  }

  lemma TakeLeavesUnsettled(s: Sink, a: TakeStep)
    requires CanTake(s, a)
    ensures Unsettled(s.worker) == []
    ensures Unsettled(WorkerAfterTake(s, a)) == if a.EndBatch? || a.RestEnd? then s.worker.batch else []
  {
  }

  lemma TakeKeepsFate(s: Sink, a: TakeStep)
    requires CanTake(s, a) && FateInv(s) && (s.ledger.leftover != [] ==> Leaving(s.worker))
    ensures FateInv(Take(s, a))
  {
    TakeMovesCut(s, a);
    TakeLeavesUnsettled(s, a);
    var c, w, w' := Cut(s.ledger), s.worker, WorkerAfterTake(s, a);
    var c' := Cut(LedgerAfterTake(s, a));
    assert c' == c + Unsettled(w');
    assert multiset(c') == Known(s.fate) + multiset(Unsettled(w'));
  }

  /** Steps that leave the batch in the worker's hands undecided. */
  predicate Undecided(a: SettleStep)
  {
    a.BackoffEnds? || a.BackoffInterrupted? || a.PostFails? || a.Finish? || (a.Encode? && a.ok)
  }

  lemma UndecidedKeeps(cfg: Config, s: Sink, a: SettleStep)
    requires CanSettle(cfg, s, a) && Undecided(a)
    ensures FateAfterSettle(cfg, s, a) == s.fate && Unsettled(WorkerAfterSettle(cfg, s, a)) == Unsettled(s.worker)
  {
  }

  /** Steps that decide the whole batch. */
  lemma DecidedEmpties(cfg: Config, s: Sink, a: SettleStep)
    requires CanSettle(cfg, s, a) && !Undecided(a) && !a.DeadLetterOne?
    ensures Unsettled(WorkerAfterSettle(cfg, s, a)) == [] && Unsettled(s.worker) == s.worker.batch
    ensures var f, batch := s.fate, multiset(s.worker.batch);
            FateAfterSettle(cfg, s, a) ==
            if a.PostSucceeds? then f.(delivered := f.delivered + batch) else f.(lost := f.lost + batch)
  {
  }

  lemma DeadLetterTakesHead(cfg: Config, s: Sink, written: bool)
    requires CanSettle(cfg, s, DeadLetterOne(written))
    ensures var a, f, b := DeadLetterOne(written), s.fate, s.worker.batch;
            && Unsettled(s.worker) == b && Unsettled(WorkerAfterSettle(cfg, s, a)) == b[1..]
            && FateAfterSettle(cfg, s, a) == if written then f.(deadLettered := f.deadLettered + multiset{b[0]})
                                             else f.(lost := f.lost + multiset{b[0]})
  {
  }

  lemma OneSettled(f: Fate, e: Event, rest: multiset<Event>)
    ensures Known(f.(deadLettered := f.deadLettered + multiset{e})) + rest == Known(f) + (multiset{e} + rest)
    ensures Known(f.(lost := f.lost + multiset{e})) + rest == Known(f) + (multiset{e} + rest)
  {
  }

  lemma AllSettled(f: Fate, batch: multiset<Event>)
    ensures Known(f.(delivered := f.delivered + batch)) == Known(f) + batch
    ensures Known(f.(lost := f.lost + batch)) == Known(f) + batch
  {
  }

  /** Settling moves events from the worker's hands into its account, one report each. */
  lemma SettleMovesFate(cfg: Config, s: Sink, a: SettleStep)
    requires CanSettle(cfg, s, a)
    ensures Known(FateAfterSettle(cfg, s, a)) + multiset(Unsettled(WorkerAfterSettle(cfg, s, a))) ==
            Known(s.fate) + multiset(Unsettled(s.worker))
  {
    if Undecided(a) {
      UndecidedKeeps(cfg, s, a);
    } else if a.DeadLetterOne? {
      DeadLetterMoves(cfg, s, a.written);
    } else {
      DecisionMoves(cfg, s, a);
    }
  }

  lemma DeadLetterMoves(cfg: Config, s: Sink, written: bool)
    requires CanSettle(cfg, s, DeadLetterOne(written))
    ensures var a := DeadLetterOne(written);
            Known(FateAfterSettle(cfg, s, a)) + multiset(Unsettled(WorkerAfterSettle(cfg, s, a))) ==
            Known(s.fate) + multiset(Unsettled(s.worker))
  {
    DeadLetterTakesHead(cfg, s, written);
    HeadMultiset(s.worker.batch);
    OneSettled(s.fate, s.worker.batch[0], multiset(s.worker.batch[1..]));
  }

  lemma DecisionMoves(cfg: Config, s: Sink, a: SettleStep)
    requires CanSettle(cfg, s, a) && !Undecided(a) && !a.DeadLetterOne?
    ensures Known(FateAfterSettle(cfg, s, a)) + multiset(Unsettled(WorkerAfterSettle(cfg, s, a))) ==
            Known(s.fate) + multiset(Unsettled(s.worker))
  {
    DecidedEmpties(cfg, s, a);
    AllSettled(s.fate, multiset(s.worker.batch));
    assert multiset(Unsettled(WorkerAfterSettle(cfg, s, a))) == multiset{};
  }

  lemma SettleKeepsOrder(cfg: Config, s: Sink, a: SettleStep)
    requires CanSettle(cfg, s, a) && OrderInv(s)
    ensures OrderInv(Settle(cfg, s, a)) && Cut(Settle(cfg, s, a).ledger) == Cut(s.ledger)
  {
    assert Collected(s.worker) == [] && Collected(WorkerAfterSettle(cfg, s, a)) == [];
  }

  lemma SettleKeepsFate(cfg: Config, s: Sink, a: SettleStep)
    requires CanSettle(cfg, s, a) && OrderInv(s) && FateInv(s)
    ensures FateInv(Settle(cfg, s, a))
  {
    SettleKeepsOrder(cfg, s, a);
    SettleMovesFate(cfg, s, a);
  }

  lemma TakeKeepsShape(cfg: Config, s: Sink, a: TakeStep)
    requires CanTake(s, a) && LedgerInv(cfg, s.ledger) && WorkerInv(cfg, s.worker, s.ledger)
    ensures LedgerInv(cfg, Take(s, a).ledger) && WorkerInv(cfg, Take(s, a).worker, Take(s, a).ledger)
  {
  }

  lemma SettleKeepsLedger(cfg: Config, s: Sink, a: SettleStep)
    requires CanSettle(cfg, s, a) && LedgerInv(cfg, s.ledger) && WorkerInv(cfg, s.worker, s.ledger)
    ensures LedgerInv(cfg, Settle(cfg, s, a).ledger)
  {
  }

  lemma SettleKeepsWorker(cfg: Config, s: Sink, a: SettleStep)
    requires cfg.maxAttempts >= 1
    requires CanSettle(cfg, s, a) && LedgerInv(cfg, s.ledger) && WorkerInv(cfg, s.worker, s.ledger)
    ensures WorkerInv(cfg, Settle(cfg, s, a).worker, Settle(cfg, s, a).ledger)
  {
  }

  lemma ActKeepsInv(cfg: Config, s: Sink, a: Action)
    requires cfg.maxAttempts >= 1 && Enabled(cfg, s, a) && Inv(cfg, s)
    ensures Inv(cfg, Act(cfg, s, a))
  {
    match a
    case Emits(e) =>
      EmitKeeps(s.intake, s.shut.closed, e);
      EmitKeepsOrder(s.intake, s.shut.closed, e, Cut(s.ledger) + Collected(s.worker));
    case Closes(c) =>
    case Takes(t) =>
      TakeKeepsOrder(s, t);
      TakeKeepsFate(s, t);
      TakeKeepsShape(cfg, s, t);
    case Settles(t) =>
      SettleKeepsOrder(cfg, s, t);
      SettleKeepsFate(cfg, s, t);
      SettleKeepsLedger(cfg, s, t);
      SettleKeepsWorker(cfg, s, t);
  }

  lemma {:induction false} RunKeepsInv(cfg: Config, actions: seq<Action>)
    requires cfg.maxAttempts >= 1 && Run(cfg, actions).At?
    ensures Inv(cfg, Run(cfg, actions).sink)
  {
    if actions != [] {
      RunKeepsInv(cfg, actions[..|actions| - 1]);
      ActKeepsInv(cfg, Run(cfg, actions[..|actions| - 1]).sink, actions[|actions| - 1]);
    }
  }

  lemma MultisetOfThree(a: seq<Event>, b: seq<Event>, c: seq<Event>)
    ensures multiset(a + b + c) == multiset(a) + multiset(b) + multiset(c)
  {
  }

  lemma Balance(cfg: Config, s: Sink)
    requires Inv(cfg, s)
    ensures s.intake.emitted ==
            s.fate.delivered + s.fate.deadLettered + Dropped(s) +
            multiset(s.intake.buffer) + InHand(s.worker) + s.intake.pending
  {
    MultisetOfThree(Cut(s.ledger), Collected(s.worker), s.intake.buffer);
  }

  /** In every run, event by event: emitted is delivered, dead-lettered, dropped, buffered, in
      the worker's hands, or in an Emit that has not sent yet. */
  lemma EventsAreConserved(cfg: Config, actions: seq<Action>)
    requires cfg.maxAttempts >= 1 && Run(cfg, actions).At?
    ensures var s := Run(cfg, actions).sink;
            s.intake.emitted ==
            s.fate.delivered + s.fate.deadLettered + Dropped(s) +
            multiset(s.intake.buffer) + InHand(s.worker) + s.intake.pending
  {
    RunKeepsInv(cfg, actions);
    Balance(cfg, Run(cfg, actions).sink);
  }

  /** In every run: batches hold 1 to 100 events, follow one another in the order of acceptance,
      and cost at most maxAttempts posts each; an exited worker holds nothing. */
  lemma BatchesFollowAcceptance(cfg: Config, actions: seq<Action>)
    requires cfg.maxAttempts >= 1 && Run(cfg, actions).At?
    ensures var s := Run(cfg, actions).sink;
            var l := s.ledger;
            && Flatten(l.batches) + l.leftover + Collected(s.worker) + s.intake.buffer == s.intake.accepted
            && (forall i :: 0 <= i < |l.batches| ==> 1 <= |l.batches[i]| <= BATCH_SIZE)
            && |l.posts| == |l.batches|
            && (forall i :: 0 <= i < |l.posts| ==> l.posts[i] <= cfg.maxAttempts)
            && (l.leftover != [] ==> Leaving(s.worker))
            && (s.worker.Exited? ==> InHand(s.worker) == multiset{})
  {
    RunKeepsInv(cfg, actions);
  }

  // ---- shutdown ----

  /** Nothing can enter the buffer any more. */
  predicate Sealed(s: Sink) { s.shut.closed && s.intake.pending == multiset{} }

  predicate Flushed(s: Sink) { Sealed(s) && (Leaving(s.worker) ==> s.intake.buffer == []) }

  lemma TakeKeepsFlushed(s: Sink, a: TakeStep)
    requires CanTake(s, a) && Flushed(s) && (HasThen(s.worker) && s.worker.then_.ToExit? ==> s.worker.Abandoning?)
    ensures Flushed(Take(s, a))
  {
  }

  lemma SettleKeepsFlushed(cfg: Config, s: Sink, a: SettleStep)
    requires CanSettle(cfg, s, a) && Flushed(s)
    requires HasThen(s.worker) && s.worker.then_.ToExit? ==> s.worker.Abandoning?
    ensures Flushed(Settle(cfg, s, a))
  {
  }

  lemma ActKeepsFlushed(cfg: Config, s: Sink, a: Action)
    requires Enabled(cfg, s, a) && Flushed(s) && WorkerInv(cfg, s.worker, s.ledger)
    ensures Flushed(Act(cfg, s, a))
  {
    match a
    case Emits(e) =>
    case Closes(c) =>
    case Takes(t) => TakeKeepsFlushed(s, t);
    case Settles(t) => SettleKeepsFlushed(cfg, s, t);
  }

  lemma {:induction false} StaysFlushed(cfg: Config, actions: seq<Action>, k: nat)
    requires cfg.maxAttempts >= 1 && k <= |actions|
    requires Run(cfg, actions).At? && Run(cfg, actions[..k]).At? && Flushed(Run(cfg, actions[..k]).sink)
    ensures Flushed(Run(cfg, actions).sink)
  {
    if k == |actions| {
      assert actions[..k] == actions;
    } else {
      var init := actions[..|actions| - 1];
      assert init[..k] == actions[..k];
      StaysFlushed(cfg, init, k);
      RunKeepsInv(cfg, init);
      ActKeepsFlushed(cfg, Run(cfg, init).sink, actions[|actions| - 1]);
    }
  }

  /** Once the sink is closed with no Emit under way, and the worker has still to look at the
      buffer, then by the time it exits every event emitted was delivered, dead-lettered or
      counted as dropped. */
  lemma ShutdownAccountsForEverything(cfg: Config, actions: seq<Action>, k: nat)
    requires cfg.maxAttempts >= 1 && k <= |actions|
    requires Run(cfg, actions).At? && Run(cfg, actions[..k]).At?
    requires Sealed(Run(cfg, actions[..k]).sink) && !Leaving(Run(cfg, actions[..k]).sink.worker)
    requires Run(cfg, actions).sink.worker.Exited?
    ensures var s := Run(cfg, actions).sink;
            s.intake.emitted == s.fate.delivered + s.fate.deadLettered + Dropped(s)
  {
    StaysFlushed(cfg, actions, k);
    RunKeepsInv(cfg, actions);
    BalanceAtExit(cfg, Run(cfg, actions).sink);
  }

  lemma BalanceAtExit(cfg: Config, s: Sink)
    requires Inv(cfg, s) && s.worker.Exited? && Flushed(s)
    ensures s.intake.emitted == s.fate.delivered + s.fate.deadLettered + Dropped(s)
  {
    Balance(cfg, s);
    assert multiset(s.intake.buffer) == multiset{};
  }

  /** At exit everything is accounted for exactly when nothing is left in the buffer and no
      Emit that saw the sink open is still about to send. */
  lemma AccountedForExactly(cfg: Config, actions: seq<Action>)
    requires cfg.maxAttempts >= 1 && Run(cfg, actions).At? && Run(cfg, actions).sink.worker.Exited?
    ensures var s := Run(cfg, actions).sink;
            s.intake.emitted == s.fate.delivered + s.fate.deadLettered + Dropped(s) <==>
            s.intake.buffer == [] && s.intake.pending == multiset{}
  {
    RunKeepsInv(cfg, actions);
    var s := Run(cfg, actions).sink;
    Balance(cfg, s);
    NothingLeft(s.fate.delivered + s.fate.deadLettered + Dropped(s), s.intake.buffer, s.intake.pending);
  }

  lemma NothingLeft(known: multiset<Event>, buffer: seq<Event>, pending: multiset<Event>)
    ensures known + multiset(buffer) + pending == known <==> buffer == [] && pending == multiset{}
  {
    assert |known + multiset(buffer) + pending| == |known| + |buffer| + |pending|;
  }

  /** One more action. */
  lemma Extended(cfg: Config, actions: seq<Action>, s: Sink, a: Action) returns (longer: seq<Action>, s': Sink)
    requires Run(cfg, actions) == At(s) && Enabled(cfg, s, a)
    ensures s' == Act(cfg, s, a) && Run(cfg, longer) == At(s')
  {
    longer, s' := actions + [a], Act(cfg, s, a);
    assert longer[..|actions|] == actions;
  }

  /** The sink closes with one Emit about to send, and the worker finds nothing to drain. */
  lemma ExitBeforeSend(cfg: Config, e: Event) returns (actions: seq<Action>, s: Sink)
    ensures Run(cfg, actions) == At(s) && s.worker.Exited? && s.fate == OPENED.fate
    ensures s.intake == Intake([], multiset{e}, multiset{e}, [], multiset{})
  {
    actions, s := [], OPENED;
    actions, s := Extended(cfg, actions, s, Emits(Check(e)));
    assert s.intake == Intake([], multiset{e}, multiset{e}, [], multiset{});
    actions, s := Extended(cfg, actions, s, Closes(Flag));
    actions, s := Extended(cfg, actions, s, Closes(Signal));
    actions, s := Extended(cfg, actions, s, Takes(SeeDone));
    actions, s := Extended(cfg, actions, s, Takes(DrainEmpty));
  }

  /** An Emit that saw the sink open and sends after the worker's last look strands its event. */
  lemma LateSendIsStranded(cfg: Config, e: Event) returns (actions: seq<Action>, s: Sink)
    ensures Run(cfg, actions) == At(s) && s.worker.Exited? && s.fate == OPENED.fate
    ensures s.intake == Intake([e], multiset{}, multiset{e}, [e], multiset{})
  {
    actions, s := ExitBeforeSend(cfg, e);
    actions, s := Extended(cfg, actions, s, Emits(Send(e)));
  }
}
