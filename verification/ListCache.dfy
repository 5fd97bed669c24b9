/**
 The list cache shared through Redis. Every key family has a generation counter that is part
 of the data keys; bumping it orphans the whole family. Any number of gateways run GetOrFill
 and Invalidate concurrently; single Redis commands are atomic and may fail.
 */
module ListCache {
  import opened Wrappers
  import opened CacheKeys

  /** Bytes in the cache, with the step at which the fill that produced them began. */
  datatype Blob = Blob(bytes: string, origin: nat)

  /** Where one GetOrFill call is. started is the step it began at; gen == None means the
      call bypasses the cache: ttl <= 0, or the generation could not be read. */
  datatype Phase = NeedGen | NeedData(gen: nat) | NeedFill(use: Option<nat>) | Filling(use: Option<nat>, since: nat)
                 | Filled(gen: nat, blob: Blob) | Done(result: Option<Blob>)

  datatype Call = Call(key: string, started: nat, phase: Phase)

  datatype State = State(gens: map<string, nat>, data: map<(nat, string), Blob>, calls: map<nat, Call>)

  const INITIAL := State(map[], map[], map[])

  datatype Action =
    | Start(caller: nat, key: string, cacheable: bool)
    | ReadGen(caller: nat, ok: bool)
    | ReadData(caller: nat, ok: bool)
    | BeginFill(caller: nat)
    | EndFill(caller: nat, bytes: Option<string>)
    | StoreData(caller: nat, ok: bool)
    | Invalidate(prefix: string, applied: bool)
    | Expire(gen: nat, key: string)
    | EvictGen(family: string)

  /** GET of a missing generation key reads as 0. */
  function Gen(s: State, family: string): nat { if family in s.gens then s.gens[family] else 0 }

  function Move(s: State, caller: nat, phase: Phase): State
    requires caller in s.calls
  {
    s.(calls := s.calls[caller := s.calls[caller].(phase := phase)])
  }

  predicate Enabled(s: State, a: Action)
  {
    match a
    case Start(c, _, _) => c in s.calls ==> s.calls[c].phase.Done?
    case ReadGen(c, _) => c in s.calls && s.calls[c].phase.NeedGen?
    case ReadData(c, _) => c in s.calls && s.calls[c].phase.NeedData?
    case BeginFill(c) => c in s.calls && s.calls[c].phase.NeedFill?
    case EndFill(c, _) => c in s.calls && s.calls[c].phase.Filling?
    case StoreData(c, _) => c in s.calls && s.calls[c].phase.Filled?
    case Invalidate(_, _) => true
    case Expire(_, _) => true
    case EvictGen(_) => true
  }

  /** Step number n of the system. */
  function Act(s: State, n: nat, a: Action): State
    requires Enabled(s, a)
  {
    match a
    case Start(c, key, cacheable) =>
      s.(calls := s.calls[c := Call(key, n, if cacheable then NeedGen else NeedFill(None))])
    case ReadGen(c, ok) =>
      Move(s, c, if ok then NeedData(Gen(s, Family(s.calls[c].key))) else NeedFill(None))
    case ReadData(c, ok) =>
      var at := (s.calls[c].phase.gen, s.calls[c].key);
      Move(s, c, if ok && at in s.data then Done(Some(s.data[at])) else NeedFill(Some(at.0)))
    case BeginFill(c) => Move(s, c, Filling(s.calls[c].phase.use, n))
    case EndFill(c, bytes) =>
      var p := s.calls[c].phase;
      if bytes.None? then Move(s, c, Done(None))
      else
        var blob := Blob(bytes.value, p.since);
        Move(s, c, if p.use.Some? then Filled(p.use.value, blob) else Done(Some(blob)))
    case StoreData(c, ok) =>
      var p := s.calls[c].phase;
      var s' := Move(s, c, Done(Some(p.blob)));
      if ok then s'.(data := s.data[(p.gen, s.calls[c].key) := p.blob]) else s'
    case Invalidate(prefix, applied) =>
      if applied then s.(gens := s.gens[Family(prefix) := Gen(s, Family(prefix)) + 1]) else s
    case Expire(gen, key) => s.(data := s.data - {(gen, key)})
    case EvictGen(family) => s.(gens := s.gens - {family})
  }

  /** The state these actions lead to, if each was possible in turn. */
  function Run(actions: seq<Action>): Option<State>
  {
    if actions == [] then Some(INITIAL)
    else
      var n := |actions| - 1;
      var before := Run(actions[..n]);
      if before.None? || !Enabled(before.value, actions[n]) then None
      else Some(Act(before.value, n, actions[n]))
  }

  predicate Bumps(a: Action, family: string) { a.Invalidate? && a.applied && Family(a.prefix) == family }

  /** Successful invalidations of a family among the first n actions. */
  function Generation(actions: seq<Action>, family: string, n: nat): nat
    requires n <= |actions|
  {
    if n == 0 then 0
    else Generation(actions, family, n - 1) + if Bumps(actions[n - 1], family) then 1 else 0
  }

  lemma {:induction false} GenerationMonotone(actions: seq<Action>, family: string, m: nat, n: nat)
    requires m <= n <= |actions|
    ensures Generation(actions, family, m) <= Generation(actions, family, n)
  {
    if m < n { GenerationMonotone(actions, family, m, n - 1); }
  }

  /** No EvictGen of the family before step n. */
  ghost predicate NotEvictedBefore(actions: seq<Action>, family: string, n: nat)
  {
    forall i :: 0 <= i < n && i < |actions| ==> actions[i] != EvictGen(family)
  }

  /** What the family's counter reads at step r. */
  function GenAt(actions: seq<Action>, family: string, r: nat): nat
    requires r <= |actions|
  {
    var s := Run(actions[..r]);
    if s.Some? then Gen(s.value, family) else 0
  }

  /** Some step before `before` would have read g. */
  ghost predicate StoodAt(actions: seq<Action>, family: string, g: nat, before: nat)
  {
    exists r :: 0 <= r < before && r < |actions| && GenAt(actions, family, r) == g
  }

  /** Step r is the call's own read of its generation, and it read g. */
  ghost predicate OwnRead(actions: seq<Action>, caller: nat, c: Call, g: nat, r: nat)
  {
    c.started < r < |actions| && actions[r] == ReadGen(caller, true) && GenAt(actions, Family(c.key), r) == g
  }

  ghost predicate HasRead(actions: seq<Action>, caller: nat, c: Call, g: nat, before: nat)
  {
    exists r: nat :: r < before && OwnRead(actions, caller, c, g, r)
  }

  /** The bytes of a fill that began after the call did, or bytes that were filled after some
      call had read the generation this call read. */
  ghost predicate Sourced(actions: seq<Action>, caller: nat, c: Call, origin: nat)
  {
    origin < |actions| &&
    (c.started < origin ||
     exists r: nat :: r < |actions| && OwnRead(actions, caller, c, GenAt(actions, Family(c.key), r), r) &&
                      StoodAt(actions, Family(c.key), GenAt(actions, Family(c.key), r), origin))
  }

  /** What is known of one call. */
  ghost predicate CallInv(actions: seq<Action>, caller: nat, c: Call)
  {
    c.started < |actions| &&
    match c.phase
    case NeedGen => true
    case NeedData(g) => HasRead(actions, caller, c, g, |actions|)
    case NeedFill(use) => use.Some? ==> HasRead(actions, caller, c, use.value, |actions|)
    case Filling(use, since) =>
      c.started < since < |actions| && (use.Some? ==> HasRead(actions, caller, c, use.value, since))
    case Filled(g, blob) => c.started < blob.origin < |actions| && HasRead(actions, caller, c, g, blob.origin)
    case Done(result) => result.Some? ==> Sourced(actions, caller, c, result.value.origin)
  }

  /** Whatever is stored under a generation was filled after a call had read that generation. */
  ghost predicate DataInv(actions: seq<Action>, at: (nat, string), blob: Blob)
  {
    blob.origin < |actions| && StoodAt(actions, Family(at.1), at.0, blob.origin)
  }

  ghost predicate Inv(actions: seq<Action>, s: State)
  {
    && (forall at :: at in s.data ==> DataInv(actions, at, s.data[at]))
    && (forall c :: c in s.calls ==> CallInv(actions, c, s.calls[c]))
  }

  // ---- what survives further actions ----

  ghost predicate Extends(longer: seq<Action>, actions: seq<Action>)
  {
    |longer| == |actions| + 1 && longer[..|actions|] == actions
  }

  lemma GenAtPersists(actions: seq<Action>, longer: seq<Action>, family: string, r: nat)
    requires Extends(longer, actions) && r <= |actions|
    ensures GenAt(longer, family, r) == GenAt(actions, family, r)
  {
    assert longer[..r] == longer[..|actions|][..r];
  }

  lemma StoodAtPersists(actions: seq<Action>, longer: seq<Action>, family: string, g: nat, before: nat)
    requires Extends(longer, actions) && StoodAt(actions, family, g, before)
    ensures StoodAt(longer, family, g, before)
  {
    var r :| 0 <= r < before && r < |actions| && GenAt(actions, family, r) == g;
    GenAtPersists(actions, longer, family, r);
  }

  lemma OwnReadPersists(actions: seq<Action>, longer: seq<Action>, caller: nat, c: Call, g: nat, r: nat)
    requires Extends(longer, actions) && OwnRead(actions, caller, c, g, r)
    ensures OwnRead(longer, caller, c, g, r)
  {
    GenAtPersists(actions, longer, Family(c.key), r);
    assert longer[r] == longer[..|actions|][r];
  }

  lemma HasReadPersists(actions: seq<Action>, longer: seq<Action>, caller: nat, c: Call, g: nat, before: nat)
    requires Extends(longer, actions) && HasRead(actions, caller, c, g, before)
    ensures HasRead(longer, caller, c, g, before)
    ensures before <= |longer| ==> HasRead(longer, caller, c, g, |longer|)
  {
    var r: nat :| r < before && OwnRead(actions, caller, c, g, r);
    OwnReadPersists(actions, longer, caller, c, g, r);
  }

  lemma SourcedPersists(actions: seq<Action>, longer: seq<Action>, caller: nat, c: Call, origin: nat)
    requires Extends(longer, actions) && Sourced(actions, caller, c, origin)
    ensures Sourced(longer, caller, c, origin)
  {
    if !(c.started < origin) {
      var f := Family(c.key);
      var r: nat :| r < |actions| && OwnRead(actions, caller, c, GenAt(actions, f, r), r) &&
                    StoodAt(actions, f, GenAt(actions, f, r), origin);
      GenAtPersists(actions, longer, f, r);
      OwnReadPersists(actions, longer, caller, c, GenAt(actions, f, r), r);
      StoodAtPersists(actions, longer, f, GenAt(actions, f, r), origin);
    }
  }

  lemma CallInvPersists(actions: seq<Action>, longer: seq<Action>, caller: nat, c: Call)
    requires Extends(longer, actions) && CallInv(actions, caller, c)
    ensures CallInv(longer, caller, c)
  {
    match c.phase
    case NeedGen =>
    case NeedData(g) => HasReadPersists(actions, longer, caller, c, g, |actions|);
    case NeedFill(use) => if use.Some? { HasReadPersists(actions, longer, caller, c, use.value, |actions|); }
    case Filling(use, since) => if use.Some? { HasReadPersists(actions, longer, caller, c, use.value, since); }
    case Filled(g, blob) => HasReadPersists(actions, longer, caller, c, g, blob.origin);
    case Done(result) => if result.Some? { SourcedPersists(actions, longer, caller, c, result.value.origin); }
  }

  // ---- what every step keeps ----

  /** The call an action moves, if it moves one. */
  function Mover(a: Action): Option<nat>
  {
    match a
    case Start(c, _, _) => Some(c)
    case ReadGen(c, _) => Some(c)
    case ReadData(c, _) => Some(c)
    case BeginFill(c) => Some(c)
    case EndFill(c, _) => Some(c)
    case StoreData(c, _) => Some(c)
    case _ => None
  }

  lemma ReadGenMoves(actions: seq<Action>, longer: seq<Action>, s: State, caller: nat, c: Call)
    requires Extends(longer, actions) && Run(actions) == Some(s) && longer[|actions|] == ReadGen(caller, true)
    requires c.started < |actions|
    ensures CallInv(longer, caller, c.(phase := NeedData(Gen(s, Family(c.key)))))
  {
    var c' := c.(phase := NeedData(Gen(s, Family(c.key))));
    assert OwnRead(longer, caller, c', Gen(s, Family(c.key)), |actions|);
  }

  lemma HitMoves(actions: seq<Action>, caller: nat, c: Call, blob: Blob)
    requires CallInv(actions, caller, c) && c.phase.NeedData? && DataInv(actions, (c.phase.gen, c.key), blob)
    ensures CallInv(actions, caller, c.(phase := Done(Some(blob))))
  {
    var c' := c.(phase := Done(Some(blob)));
    var r: nat :| r < |actions| && OwnRead(actions, caller, c, c.phase.gen, r);
    assert OwnRead(actions, caller, c', GenAt(actions, Family(c.key), r), r);
  }

  lemma SameReads(actions: seq<Action>, caller: nat, c: Call, phase: Phase, g: nat, before: nat)
    requires HasRead(actions, caller, c, g, before)
    ensures HasRead(actions, caller, c.(phase := phase), g, before)
  {
    var r: nat :| r < before && OwnRead(actions, caller, c, g, r);
    assert OwnRead(actions, caller, c.(phase := phase), g, r);
  }

  lemma MissMoves(actions: seq<Action>, caller: nat, c: Call)
    requires CallInv(actions, caller, c) && c.phase.NeedData?
    ensures CallInv(actions, caller, c.(phase := NeedFill(Some(c.phase.gen))))
  {
    SameReads(actions, caller, c, NeedFill(Some(c.phase.gen)), c.phase.gen, |actions|);
  }

  lemma BeginFillMoves(actions: seq<Action>, longer: seq<Action>, caller: nat, c: Call)
    requires Extends(longer, actions) && CallInv(actions, caller, c) && c.phase.NeedFill?
    ensures CallInv(longer, caller, c.(phase := Filling(c.phase.use, |actions|)))
  {
    var use, phase := c.phase.use, Filling(c.phase.use, |actions|);
    if use.Some? {
      HasReadPersists(actions, longer, caller, c, use.value, |actions|);
      SameReads(longer, caller, c, phase, use.value, |actions|);
    }
  }

  lemma EndFillMoves(actions: seq<Action>, caller: nat, c: Call, bytes: string)
    requires CallInv(actions, caller, c) && c.phase.Filling?
    ensures var blob := Blob(bytes, c.phase.since);
            CallInv(actions, caller, c.(phase := if c.phase.use.Some? then Filled(c.phase.use.value, blob)
                                                 else Done(Some(blob))))
  {
    var use, blob := c.phase.use, Blob(bytes, c.phase.since);
    if use.Some? { SameReads(actions, caller, c, Filled(use.value, blob), use.value, c.phase.since); }
  }

  /** The call an action moves, afterwards. */
  function MovedTo(s: State, n: nat, a: Action): Call
    requires Enabled(s, a) && Mover(a).Some?
  {
    Act(s, n, a).calls[Mover(a).value]
  }

  lemma StartMoves(actions: seq<Action>, longer: seq<Action>, s: State, a: Action)
    requires Extends(longer, actions) && a.Start? && Enabled(s, a)
    ensures CallInv(longer, a.caller, MovedTo(s, |actions|, a))
  {
  }

  lemma ReadDataMoves(actions: seq<Action>, longer: seq<Action>, s: State, a: Action)
    requires Extends(longer, actions) && Inv(actions, s) && a.ReadData? && Enabled(s, a)
    ensures CallInv(longer, a.caller, MovedTo(s, |actions|, a))
  {
    var caller, c := a.caller, s.calls[a.caller];
    var at := (c.phase.gen, c.key);
    MissMoves(actions, caller, c);
    CallInvPersists(actions, longer, caller, c.(phase := NeedFill(Some(c.phase.gen))));
    if at in s.data {
      HitMoves(actions, caller, c, s.data[at]);
      CallInvPersists(actions, longer, caller, c.(phase := Done(Some(s.data[at]))));
    }
  }

  lemma FillMoves(actions: seq<Action>, longer: seq<Action>, s: State, a: Action)
    requires Extends(longer, actions) && Inv(actions, s) && Enabled(s, a)
    requires a.BeginFill? || a.EndFill? || a.StoreData?
    ensures CallInv(longer, a.caller, MovedTo(s, |actions|, a))
  {
    var caller, c := a.caller, s.calls[a.caller];
    CallInvPersists(actions, longer, caller, c);
    match a
    case BeginFill(_) => BeginFillMoves(actions, longer, caller, c);
    case EndFill(_, bytes) => if bytes.Some? { EndFillMoves(longer, caller, c, bytes.value); }
    case StoreData(_, _) =>
  }

  /** The call that moves satisfies its part of the invariant afterwards. */
  lemma MoverKeepsInv(actions: seq<Action>, longer: seq<Action>, s: State)
    requires Extends(longer, actions) && Run(actions) == Some(s) && Inv(actions, s)
    requires Enabled(s, longer[|actions|]) && Mover(longer[|actions|]).Some?
    ensures var a := longer[|actions|]; CallInv(longer, Mover(a).value, MovedTo(s, |actions|, a))
  {
    var a := longer[|actions|];
    match a
    case Start(_, _, _) => StartMoves(actions, longer, s, a);
    case ReadGen(caller, ok) => if ok { ReadGenMoves(actions, longer, s, caller, s.calls[caller]); }
    case ReadData(_, _) => ReadDataMoves(actions, longer, s, a);
    case _ => FillMoves(actions, longer, s, a);
  }

  lemma StoredIsKnown(actions: seq<Action>, caller: nat, c: Call)
    requires CallInv(actions, caller, c) && c.phase.Filled?
    ensures DataInv(actions, (c.phase.gen, c.key), c.phase.blob)
  {
    var r: nat :| r < c.phase.blob.origin && OwnRead(actions, caller, c, c.phase.gen, r);
  }

  lemma StepKeepsData(actions: seq<Action>, longer: seq<Action>, s: State, a: Action, at: (nat, string))
    requires Extends(longer, actions) && Inv(actions, s) && Enabled(s, a) && at in Act(s, |actions|, a).data
    ensures DataInv(longer, at, Act(s, |actions|, a).data[at])
  {
    var blob := Act(s, |actions|, a).data[at];
    if a.StoreData? && a.ok && at == (s.calls[a.caller].phase.gen, s.calls[a.caller].key) {
      StoredIsKnown(actions, a.caller, s.calls[a.caller]);
    } else {
      assert at in s.data && blob == s.data[at];
    }
    StoodAtPersists(actions, longer, Family(at.1), at.0, blob.origin);
  }

  lemma OthersStay(s: State, n: nat, a: Action, c: nat)
    requires Enabled(s, a) && c in Act(s, n, a).calls && Mover(a) != Some(c)
    ensures c in s.calls && Act(s, n, a).calls[c] == s.calls[c]
  {
  }

  lemma StepKeepsInv(actions: seq<Action>, longer: seq<Action>, s: State)
    requires Extends(longer, actions) && Run(actions) == Some(s) && Inv(actions, s) && Enabled(s, longer[|actions|])
    ensures Inv(longer, Act(s, |actions|, longer[|actions|]))
  {
    var a := longer[|actions|];
    var s' := Act(s, |actions|, a);
    forall at | at in s'.data ensures DataInv(longer, at, s'.data[at]) {
      StepKeepsData(actions, longer, s, a, at);
    }
    forall c | c in s'.calls ensures CallInv(longer, c, s'.calls[c]) {
      if Mover(a) == Some(c) {
        MoverKeepsInv(actions, longer, s);
      } else {
        OthersStay(s, |actions|, a, c);
        CallInvPersists(actions, longer, c, s.calls[c]);
      }
    }
  }

  lemma {:induction false} RunKeepsInv(actions: seq<Action>)
    requires Run(actions).Some?
    ensures Inv(actions, Run(actions).value)
  {
    if actions != [] {
      var n := |actions| - 1;
      RunKeepsInv(actions[..n]);
      StepKeepsInv(actions[..n], actions, Run(actions[..n]).value);
    }
  }

  // ---- freshness ----

  lemma GenAfter(s: State, n: nat, a: Action, family: string)
    requires Enabled(s, a) && a != EvictGen(family)
    ensures Gen(Act(s, n, a), family) == Gen(s, family) + if Bumps(a, family) then 1 else 0
  {
  }

  lemma {:induction false} RunPrefix(actions: seq<Action>, n: nat)
    requires Run(actions).Some? && n <= |actions|
    ensures Run(actions[..n]).Some?
  {
    if n == |actions| {
      assert actions[..n] == actions;
    } else {
      var init := actions[..|actions| - 1];
      assert init[..n] == actions[..n];
      RunPrefix(init, n);
    }
  }

  /** Until it is evicted, the counter is the number of successful invalidations. */
  lemma {:induction false} CounterIsGeneration(actions: seq<Action>, family: string, n: nat)
    requires Run(actions).Some? && n <= |actions| && NotEvictedBefore(actions, family, n)
    ensures GenAt(actions, family, n) == Generation(actions, family, n)
  {
    if n > 0 {
      CounterIsGeneration(actions, family, n - 1);
      CounterMoves(actions, family, n - 1);
    }
  }

  lemma CounterMoves(actions: seq<Action>, family: string, n: nat)
    requires Run(actions).Some? && n < |actions| && actions[n] != EvictGen(family)
    ensures GenAt(actions, family, n + 1) == GenAt(actions, family, n) + if Bumps(actions[n], family) then 1 else 0
  {
    RunPrefix(actions, n + 1);
    assert actions[..n + 1][..n] == actions[..n];
    GenAfter(Run(actions[..n]).value, n, actions[n], family);
  }

  lemma BumpSeparates(actions: seq<Action>, family: string, origin: nat, i: nat, started: nat)
    requires origin <= |actions| && i < started <= |actions| && Bumps(actions[i], family)
    requires Generation(actions, family, started) <= Generation(actions, family, origin)
    ensures i < origin
  {
    if origin <= i { GenerationMonotone(actions, family, origin, i); }
    GenerationMonotone(actions, family, i + 1, started);
  }

  /** A generation read after the bump, and also read at r, was read at r after the bump too. */
  lemma SameGenerationIsLater(actions: seq<Action>, family: string, i: nat, own: nat, r: nat)
    requires Run(actions).Some? && i < own < |actions| && r < |actions| && Bumps(actions[i], family)
    requires NotEvictedBefore(actions, family, own) && GenAt(actions, family, r) == GenAt(actions, family, own)
    ensures i < r
  {
    if r < own {
      CounterIsGeneration(actions, family, own);
      CounterIsGeneration(actions, family, r);
      BumpSeparates(actions, family, r, i, own);
    }
  }

  lemma SourcedIsFresh(actions: seq<Action>, caller: nat, c: Call, origin: nat, i: nat)
    requires Run(actions).Some? && Sourced(actions, caller, c, origin)
    requires i < c.started && i < |actions| && Bumps(actions[i], Family(c.key))
    requires forall r :: c.started < r < |actions| && actions[r] == ReadGen(caller, true) ==>
               NotEvictedBefore(actions, Family(c.key), r)
    ensures origin > i
  {
    var f := Family(c.key);
    if !(c.started < origin) {
      var own: nat :| own < |actions| && OwnRead(actions, caller, c, GenAt(actions, f, own), own) &&
                      StoodAt(actions, f, GenAt(actions, f, own), origin);
      var r :| 0 <= r < origin && r < |actions| && GenAt(actions, f, r) == GenAt(actions, f, own);
      SameGenerationIsLater(actions, f, i, own, r);
    }
  }

  /** For every interleaving of any number of callers, with reads and writes failing anywhere:
      a GetOrFill that started after a successful Invalidate of its family returns bytes whose
      fill began after that Invalidate, unless the generation key was evicted before the call
      read it. */
  lemma FreshAfterInvalidate(actions: seq<Action>, caller: nat, i: nat)
    requires Run(actions).Some? && caller in Run(actions).value.calls
    requires var c := Run(actions).value.calls[caller];
             && c.phase.Done? && c.phase.result.Some?
             && i < c.started && i < |actions| && Bumps(actions[i], Family(c.key))
             && forall r :: c.started < r < |actions| && actions[r] == ReadGen(caller, true) ==>
                  NotEvictedBefore(actions, Family(c.key), r)
    ensures Run(actions).value.calls[caller].phase.result.value.origin > i
  {
    var c := Run(actions).value.calls[caller];
    RunKeepsInv(actions);
    assert CallInv(actions, caller, c);
    SourcedIsFresh(actions, caller, c, c.phase.result.value.origin, i);
  }

  /** The proviso is needed: with the generation key evicted after an Invalidate, a later
      call is served bytes from before it. */
  lemma EvictedGenerationServesStale()
    ensures exists actions, i, c ::
              && Run(actions).Some? && 0 <= i < |actions| && c in Run(actions).value.calls
              && var call := Run(actions).value.calls[c];
                 && call.phase.Done? && call.phase.result.Some? && i < call.started
                 && Bumps(actions[i], Family(call.key)) && call.phase.result.value.origin < i
  {
    var key := "tools";
    FirstSlashIs(key, |key|);
    var a, s := StaleRun(key);
    var call := s.calls[1];
    assert Run(a).Some? && Bumps(a[6], Family(call.key)) && call.phase.result.value.origin < 6 < call.started;
  }

  /** One more action. */
  lemma Extended(actions: seq<Action>, s: State, a: Action) returns (longer: seq<Action>, s': State)
    requires Run(actions) == Some(s) && Enabled(s, a)
    ensures |longer| == |actions| + 1 && longer[|actions|] == a
    ensures forall i :: 0 <= i < |actions| ==> longer[i] == actions[i]
    ensures s' == Act(s, |actions|, a) && Run(longer) == Some(s')
  {
    longer, s' := actions + [a], Act(s, |actions|, a);
    assert longer[..|actions|] == actions;
  }

  /** Caller 0 misses at generation 0. */
  lemma MissRun(key: string) returns (a: seq<Action>, s: State)
    ensures |a| == 3 && Run(a) == Some(s) && s.gens == map[] && s.data == map[]
    ensures 0 in s.calls && s.calls[0] == Call(key, 0, NeedFill(Some(0))) && 1 !in s.calls
  {
    a, s := [], INITIAL;
    a, s := Extended(a, s, Start(0, key, true));
    a, s := Extended(a, s, ReadGen(0, true));
    a, s := Extended(a, s, ReadData(0, true));
  }

  /** It fills and stores the key; its fill begins at step 3. */
  lemma FillRun(key: string) returns (a: seq<Action>, s: State)
    ensures |a| == 6 && Run(a) == Some(s) && s.gens == map[] && 1 !in s.calls
    ensures (0, key) in s.data && s.data[(0, key)] == Blob("old", 3)
  {
    a, s := MissRun(key);
    a, s := Extended(a, s, BeginFill(0));
    a, s := Extended(a, s, EndFill(0, Some("old")));
    a, s := Extended(a, s, StoreData(0, true));
  }

  /** Then the family is invalidated at step 6, and its generation evicted. */
  lemma EvictRun(key: string) returns (a: seq<Action>, s: State)
    requires Family(key) == key
    ensures |a| == 8 && Run(a) == Some(s) && a[6] == Invalidate(key, true) && Gen(s, key) == 0 && 1 !in s.calls
    ensures (0, key) in s.data && s.data[(0, key)] == Blob("old", 3)
  {
    a, s := FillRun(key);
    a, s := Extended(a, s, Invalidate(key, true));
    a, s := Extended(a, s, EvictGen(key));
  }

  /** Caller 1 starts at step 8 and reads the old generation. */
  lemma StaleRun(key: string) returns (a: seq<Action>, s: State)
    requires Family(key) == key
    ensures |a| == 11 && Run(a) == Some(s) && a[6] == Invalidate(key, true)
    ensures 1 in s.calls && s.calls[1] == Call(key, 8, Done(Some(Blob("old", 3))))
  {
    a, s := EvictRun(key);
    a, s := Extended(a, s, Start(1, key, true));
    a, s := Extended(a, s, ReadGen(1, true));
    a, s := Extended(a, s, ReadData(1, true));
  }
}
