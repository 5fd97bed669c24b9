/**
 Upstream token fetching. Callers for one cache key queue behind a reference-counted gate so
 that at most one of them talks to the token endpoint. A gate's own lock is taken and released
 apart from the sections under the cache lock.
 */
module TokenGate {
  import opened Wrappers
  import opened TokenCache

  /** Where one cachedFetch call is. */
  datatype Phase = Missed                       // not cached; has to join
                 | Waiting(gate: nat)           // joined, gate lock not held
                 | Holding(gate: nat)           // gate lock held, about to look again
                 | Preparing(gate: nat)         // still not cached: building the request
                 | Fetching(gate: nat)          // the token request is in flight
                 | Fetched(gate: nat, value: string, ttl: int)
                 | Leaving(gate: nat, result: Option<Token>)
                 | Unlocking(gate: nat, result: Option<Token>)
                 | Done(result: Option<Token>)

  datatype Call = Call(key: string, phase: Phase)

  datatype System = System(shared: Shared, holder: map<nat, nat>, calls: map<nat, Call>)

  const IDLE := System(FRESH, map[], map[])

  datatype Action =
    | Begin(caller: nat, key: string, now: int)
    | JoinGate(caller: nat)
    | Acquire(caller: nat)
    | Recheck(caller: nat, now: int)
    | FormFails(caller: nat)
    | Send(caller: nat)
    | FetchFails(caller: nat)
    | FetchSucceeds(caller: nat, value: string, ttl: int)
    | Store(caller: nat, now: int, kept: map<string, Token>)
    | LeaveGate(caller: nat)
    | Unlock(caller: nat)

  /** The cache with the token this call has fetched. */
  function WithFetched(s: System, c: nat, now: int): map<string, Token>
    requires c in s.calls && s.calls[c].phase.Fetched?
  {
    var key, p := s.calls[c].key, s.calls[c].phase;
    s.shared.tokens[key := Obtained(key, p.value, p.ttl, now)]
  }

  ghost predicate Enabled(s: System, a: Action)
  {
    var c := a.caller;
    if a.Begin? then c in s.calls ==> s.calls[c].phase.Done?
    else
      c in s.calls &&
      var p := s.calls[c].phase;
      match a
      case JoinGate(_) => p.Missed?
      case Acquire(_) => p.Waiting? && p.gate !in s.holder
      case Recheck(_, _) => p.Holding?
      case FormFails(_) => p.Preparing?
      case Send(_) => p.Preparing?
      case FetchFails(_) => p.Fetching?
      case FetchSucceeds(_, _, _) => p.Fetching?
      case Store(_, now, kept) => p.Fetched? && Pruned(WithFetched(s, c, now), now, kept)
      case LeaveGate(_) => p.Leaving?
      case Unlock(_) => p.Unlocking?
  }

  function Move(s: System, c: nat, key: string, p: Phase): System
  {
    s.(calls := s.calls[c := Call(key, p)])
  }

  function AfterJoin(s: System, c: nat): System
    requires c in s.calls
  {
    var key := s.calls[c].key;
    Move(s.(shared := Joined(s.shared, key)), c, key, Waiting(GateFor(s.shared, key)))
  }

  function AfterAcquire(s: System, c: nat): System
    requires c in s.calls && s.calls[c].phase.Waiting?
  {
    var g := s.calls[c].phase.gate;
    Move(s.(holder := s.holder[g := c]), c, s.calls[c].key, Holding(g))
  }

  function AfterLeave(s: System, c: nat): System
    requires c in s.calls && s.calls[c].phase.Leaving?
  {
    var key, p := s.calls[c].key, s.calls[c].phase;
    Move(s.(shared := Left(s.shared, key, p.gate)), c, key, Unlocking(p.gate, p.result))
  }

  function AfterUnlock(s: System, c: nat): System
    requires c in s.calls && s.calls[c].phase.Unlocking?
  {
    var p := s.calls[c].phase;
    Move(s.(holder := s.holder - {p.gate}), c, s.calls[c].key, Done(p.result))
  }

  /** A step of a call that stays behind its gate: its next phase, and the cache. */
  function Inside(s: System, c: nat, p: Phase, tokens: map<string, Token>): System
    requires c in s.calls
  {
    Move(s.(shared := s.shared.(tokens := tokens)), c, s.calls[c].key, p)
  }

  ghost function Act(s: System, a: Action): System
    requires Enabled(s, a)
  {
    var c := a.caller;
    match a
    case Begin(_, key, now) =>
      var hit := Cached(s.shared, key, now);
      Move(s, c, key, if hit.Some? then Done(hit) else Missed)
    case JoinGate(_) => AfterJoin(s, c)
    case Acquire(_) => AfterAcquire(s, c)
    case Recheck(_, now) =>
      var hit := Cached(s.shared, s.calls[c].key, now);
      var g := s.calls[c].phase.gate;
      Inside(s, c, if hit.Some? then Leaving(g, hit) else Preparing(g), s.shared.tokens)
    case FormFails(_) => Inside(s, c, Leaving(s.calls[c].phase.gate, None), s.shared.tokens)
    case Send(_) => Inside(s, c, Fetching(s.calls[c].phase.gate), s.shared.tokens)
    case FetchFails(_) => Inside(s, c, Leaving(s.calls[c].phase.gate, None), s.shared.tokens)
    case FetchSucceeds(_, value, ttl) => Inside(s, c, Fetched(s.calls[c].phase.gate, value, ttl), s.shared.tokens)
    case Store(_, now, kept) =>
      var p := s.calls[c].phase;
      Inside(s, c, Leaving(p.gate, Some(Obtained(s.calls[c].key, p.value, p.ttl, now))), kept)
    case LeaveGate(_) => AfterLeave(s, c)
    case Unlock(_) => AfterUnlock(s, c)
  }

  ghost function Run(actions: seq<Action>): Option<System>
  {
    if actions == [] then Some(IDLE)
    else
      var before := Run(actions[..|actions| - 1]);
      if before.None? || !Enabled(before.value, actions[|actions| - 1]) then None
      else Some(Act(before.value, actions[|actions| - 1]))
  }

  /** Joined and not left. */
  predicate IsMember(p: Phase)
  {
    p.Waiting? || p.Holding? || p.Preparing? || p.Fetching? || p.Fetched? || p.Leaving?
  }

  predicate HoldsLock(p: Phase)
  {
    p.Holding? || p.Preparing? || p.Fetching? || p.Fetched? || p.Leaving? || p.Unlocking?
  }

  predicate MemberOf(s: System, c: nat, gate: nat)
  {
    c in s.calls && IsMember(s.calls[c].phase) && s.calls[c].phase.gate == gate
  }

  function Members(s: System, gate: nat): set<nat> { set c | c in s.calls && MemberOf(s, c, gate) }

  /** Every member's key maps to the member's gate. */
  ghost predicate MembersShareGate(s: System)
  {
    forall c :: c in s.calls && IsMember(s.calls[c].phase) ==>
      s.calls[c].key in s.shared.fetchMu && s.shared.fetchMu[s.calls[c].key] == s.calls[c].phase.gate
  }

  /** A gate in the map has at least one member, and its count is the number of members. */
  ghost predicate GatesCounted(s: System)
  {
    var m := s.shared.fetchMu;
    && (forall k :: k in m ==> m[k] < s.shared.created && WaitersOf(s.shared, m[k]) == |Members(s, m[k])| > 0)
    && (forall k, k' :: k in m && k' in m && m[k] == m[k'] ==> k == k')
  }

  /** A gate lock is held by exactly the call it names. */
  ghost predicate LocksHeld(s: System)
  {
    && (forall c :: c in s.calls && HoldsLock(s.calls[c].phase) ==>
          var g := s.calls[c].phase.gate;
          g < s.shared.created && g in s.holder && s.holder[g] == c)
    && (forall g :: g in s.holder ==>
          s.holder[g] in s.calls && HoldsLock(s.calls[s.holder[g]].phase) && s.calls[s.holder[g]].phase.gate == g)
  }

  /** A token is only ever kept for, and handed to, the key it was fetched for. */
  ghost predicate TokensOwned(s: System)
  {
    && (forall k :: k in s.shared.tokens ==> s.shared.tokens[k].fetchedFor == k)
    && (forall c :: c in s.calls ==> PhaseOwned(s.calls[c]))
  }

  predicate PhaseOwned(c: Call)
  {
    match c.phase
    case Leaving(_, r) => r.Some? ==> r.value.fetchedFor == c.key
    case Unlocking(_, r) => r.Some? ==> r.value.fetchedFor == c.key
    case Done(r) => r.Some? ==> r.value.fetchedFor == c.key
    case _ => true
  }

  ghost predicate Inv(s: System)
  {
    MembersShareGate(s) && GatesCounted(s) && LocksHeld(s) && TokensOwned(s)
  }

  /** The members of every gate when one call changes phase. */
  lemma MembersAfterMove(s: System, t: System, c: nat, gate: nat)
    requires forall d :: d != c ==> (d in t.calls <==> d in s.calls)
    requires forall d :: d != c && d in s.calls ==> t.calls[d] == s.calls[d]
    ensures Members(t, gate) == if MemberOf(t, c, gate) then Members(s, gate) + {c} else Members(s, gate) - {c}
  {
  }

  /** Gates are untouched when no gate gains or loses a member. */
  lemma SameMembersKeepGates(s: System, t: System)
    requires GatesCounted(s) && forall g :: Members(t, g) == Members(s, g)
    requires t.shared == s.shared.(tokens := t.shared.tokens)
    ensures GatesCounted(t)
  {
    forall k | k in t.shared.fetchMu
      ensures var g := t.shared.fetchMu[k]; WaitersOf(t.shared, g) == |Members(t, g)| > 0
    {
      assert WaitersOf(s.shared, s.shared.fetchMu[k]) == |Members(s, s.shared.fetchMu[k])|;
    }
  }

  /** A member that changes phase behind its gate leaves every gate as it was. */
  lemma MemberMove(s: System, t: System, c: nat, p: Phase)
    requires MembersShareGate(s) && GatesCounted(s) && c in s.calls
    requires t.calls == s.calls[c := Call(s.calls[c].key, p)] && t.shared == s.shared.(tokens := t.shared.tokens)
    requires IsMember(s.calls[c].phase) && IsMember(p) && p.gate == s.calls[c].phase.gate
    ensures MembersShareGate(t) && GatesCounted(t)
  {
    forall g ensures Members(t, g) == Members(s, g) {
      MembersAfterMove(s, t, c, g);
    }
    SameMembersKeepGates(s, t);
    MemberMoveShares(s, t, c, p);
  }

  lemma MemberMoveShares(s: System, t: System, c: nat, p: Phase)
    requires MembersShareGate(s) && c in s.calls && t.shared.fetchMu == s.shared.fetchMu
    requires t.calls == s.calls[c := Call(s.calls[c].key, p)]
    requires IsMember(s.calls[c].phase) && IsMember(p) && p.gate == s.calls[c].phase.gate
    ensures MembersShareGate(t)
  {
  }

  lemma HolderMove(s: System, t: System, c: nat, p: Phase)
    requires LocksHeld(s) && c in s.calls
    requires t.calls == s.calls[c := Call(s.calls[c].key, p)] && t.shared.created == s.shared.created
    requires t.holder == s.holder
    requires HoldsLock(s.calls[c].phase) && HoldsLock(p) && p.gate == s.calls[c].phase.gate
    ensures LocksHeld(t)
  {
  }

  /** A step inside the gate: nothing changes but one member's phase, and maybe the cache. */
  lemma InsideMove(s: System, c: nat, p: Phase, tokens: map<string, Token>)
    requires Inv(s) && c in s.calls
    requires IsMember(s.calls[c].phase) && HoldsLock(s.calls[c].phase)
    requires IsMember(p) && HoldsLock(p) && p.gate == s.calls[c].phase.gate && PhaseOwned(Call(s.calls[c].key, p))
    requires forall k :: k in tokens ==> tokens[k].fetchedFor == k
    ensures Inv(Inside(s, c, p, tokens))
  {
    var t := Inside(s, c, p, tokens);
    MemberMove(s, t, c, p);
    HolderMove(s, t, c, p);
    OwnersAfterMove(s, t, c);
  }

  lemma OwnersAfterMove(s: System, t: System, c: nat)
    requires TokensOwned(s) && c in t.calls && PhaseOwned(t.calls[c])
    requires forall d :: d in t.calls && d != c ==> d in s.calls && t.calls[d] == s.calls[d]
    requires forall k :: k in t.shared.tokens ==> t.shared.tokens[k].fetchedFor == k
    ensures TokensOwned(t)
  {
  }

  lemma PrunedOwned(before: map<string, Token>, now: int, after: map<string, Token>)
    requires Pruned(before, now, after) && forall k :: k in before ==> before[k].fetchedFor == k
    ensures forall k :: k in after ==> after[k].fetchedFor == k
  {
  }

  lemma RecheckStep(s: System, c: nat, now: int)
    requires Inv(s) && c in s.calls && s.calls[c].phase.Holding?
    ensures Inv(Act(s, Recheck(c, now)))
  {
    var hit := Cached(s.shared, s.calls[c].key, now);
    var g := s.calls[c].phase.gate;
    InsideMove(s, c, if hit.Some? then Leaving(g, hit) else Preparing(g), s.shared.tokens);
  }

  lemma StoreStep(s: System, c: nat, now: int, kept: map<string, Token>)
    requires Inv(s) && Enabled(s, Store(c, now, kept))
    ensures Inv(Act(s, Store(c, now, kept)))
  {
    var key, p := s.calls[c].key, s.calls[c].phase;
    PrunedOwned(WithFetched(s, c, now), now, kept);
    InsideMove(s, c, Leaving(p.gate, Some(Obtained(key, p.value, p.ttl, now))), kept);
  }

  /** A step outside the gate: a call that was no member changes to another such phase. */
  lemma OutsideMove(s: System, t: System, c: nat, key: string, p: Phase)
    requires Inv(s) && t == Move(s.(holder := t.holder), c, key, p)
    requires c in s.calls ==> !IsMember(s.calls[c].phase)
    requires !IsMember(p) && PhaseOwned(Call(key, p))
    ensures MembersShareGate(t) && GatesCounted(t) && TokensOwned(t)
  {
    forall g ensures Members(t, g) == Members(s, g) {
      MembersAfterMove(s, t, c, g);
    }
    SameMembersKeepGates(s, t);
    OwnersAfterMove(s, t, c);
  }

  lemma BeginLocks(s: System, c: nat, key: string, p: Phase)
    requires LocksHeld(s) && (c in s.calls ==> s.calls[c].phase.Done?) && !HoldsLock(p)
    ensures LocksHeld(Move(s, c, key, p))
  {
  }

  lemma BeginStep(s: System, c: nat, key: string, p: Phase)
    requires Inv(s) && (c in s.calls ==> s.calls[c].phase.Done?)
    requires !IsMember(p) && !HoldsLock(p) && PhaseOwned(Call(key, p))
    ensures Inv(Move(s, c, key, p))
  {
    OutsideMove(s, Move(s, c, key, p), c, key, p);
    BeginLocks(s, c, key, p);
  }

  lemma UnlockLocks(s: System, c: nat)
    requires LocksHeld(s) && c in s.calls && s.calls[c].phase.Unlocking?
    ensures LocksHeld(AfterUnlock(s, c))
  {
  }

  lemma UnlockStep(s: System, c: nat)
    requires Inv(s) && c in s.calls && s.calls[c].phase.Unlocking?
    ensures Inv(AfterUnlock(s, c))
  {
    OutsideMove(s, AfterUnlock(s, c), c, s.calls[c].key, Done(s.calls[c].phase.result));
    UnlockLocks(s, c);
  }

  lemma AcquireLocks(s: System, c: nat)
    requires LocksHeld(s) && c in s.calls && s.calls[c].phase.Waiting?
    requires s.calls[c].phase.gate !in s.holder && s.calls[c].phase.gate < s.shared.created
    ensures LocksHeld(AfterAcquire(s, c))
  {
  }

  lemma AcquireStep(s: System, c: nat)
    requires Inv(s) && c in s.calls && s.calls[c].phase.Waiting? && s.calls[c].phase.gate !in s.holder
    ensures Inv(AfterAcquire(s, c))
  {
    var t := AfterAcquire(s, c);
    MemberMove(s, t, c, Holding(s.calls[c].phase.gate));
    AcquireLocks(s, c);
    OwnersAfterMove(s, t, c);
  }

  lemma NoMembersYet(s: System, g: nat)
    requires MembersShareGate(s) && GatesCounted(s) && g >= s.shared.created
    ensures Members(s, g) == {}
  {
    assert forall c :: c in s.calls && IsMember(s.calls[c].phase) ==> s.calls[c].phase.gate < s.shared.created;
  }

  lemma JoinMembers(s: System, c: nat, g: nat)
    requires c in s.calls && s.calls[c].phase.Missed?
    ensures |Members(AfterJoin(s, c), g)| ==
            |Members(s, g)| + if g == GateFor(s.shared, s.calls[c].key) then 1 else 0
  {
    MembersAfterMove(s, AfterJoin(s, c), c, g);
    assert c !in Members(s, g);
  }

  lemma JoinKeepsCounts(s: System, c: nat)
    requires MembersShareGate(s) && GatesCounted(s) && c in s.calls && s.calls[c].phase.Missed?
    ensures GatesCounted(AfterJoin(s, c))
  {
    var t := AfterJoin(s, c);
    NoMembersYet(s, s.shared.created);
    forall k | k in t.shared.fetchMu
      ensures var g := t.shared.fetchMu[k];
              g < t.shared.created && WaitersOf(t.shared, g) == |Members(t, g)| > 0
    {
      JoinMembers(s, c, t.shared.fetchMu[k]);
    }
  }

  lemma JoinKeepsSharing(s: System, c: nat)
    requires MembersShareGate(s) && c in s.calls && s.calls[c].phase.Missed?
    ensures MembersShareGate(AfterJoin(s, c))
  {
  }

  lemma JoinLocks(s: System, c: nat)
    requires LocksHeld(s) && c in s.calls && s.calls[c].phase.Missed?
    ensures LocksHeld(AfterJoin(s, c))
  {
  }

  lemma JoinStep(s: System, c: nat)
    requires Inv(s) && c in s.calls && s.calls[c].phase.Missed?
    ensures Inv(AfterJoin(s, c))
  {
    JoinKeepsCounts(s, c);
    JoinKeepsSharing(s, c);
    JoinLocks(s, c);
    OwnersAfterMove(s, AfterJoin(s, c), c);
  }

  lemma LeaveMembers(s: System, c: nat, g: nat)
    requires c in s.calls && s.calls[c].phase.Leaving?
    ensures |Members(AfterLeave(s, c), g)| == |Members(s, g)| - if g == s.calls[c].phase.gate then 1 else 0
  {
    MembersAfterMove(s, AfterLeave(s, c), c, g);
    assert c in Members(s, g) <==> g == s.calls[c].phase.gate;
  }

  lemma LeaveKeepsCounts(s: System, c: nat)
    requires MembersShareGate(s) && GatesCounted(s) && c in s.calls && s.calls[c].phase.Leaving?
    ensures GatesCounted(AfterLeave(s, c))
  {
    var t := AfterLeave(s, c);
    forall k | k in t.shared.fetchMu
      ensures var g := t.shared.fetchMu[k];
              g < t.shared.created && WaitersOf(t.shared, g) == |Members(t, g)| > 0
    {
      LeaveMembers(s, c, t.shared.fetchMu[k]);
    }
  }

  /** As long as someone is behind the gate it is not dropped. */
  lemma GateStays(s: System, c: nat, d: nat)
    requires MembersShareGate(s) && GatesCounted(s) && c in s.calls && s.calls[c].phase.Leaving?
    requires d != c && d in s.calls && IsMember(s.calls[d].phase) && s.calls[d].key == s.calls[c].key
    ensures s.calls[c].key in AfterLeave(s, c).shared.fetchMu
  {
    var left := s.calls[c].phase.gate;
    LeaveMembers(s, c, left);
    assert d in Members(AfterLeave(s, c), left);
  }

  lemma LeaveKeepsSharing(s: System, c: nat)
    requires MembersShareGate(s) && GatesCounted(s) && c in s.calls && s.calls[c].phase.Leaving?
    ensures MembersShareGate(AfterLeave(s, c))
  {
    var t := AfterLeave(s, c);
    forall d | d in t.calls && IsMember(t.calls[d].phase)
      ensures t.calls[d].key in t.shared.fetchMu && t.shared.fetchMu[t.calls[d].key] == t.calls[d].phase.gate
    {
      if t.calls[d].key == s.calls[c].key { GateStays(s, c, d); }
    }
  }

  lemma LeaveLocks(s: System, c: nat)
    requires LocksHeld(s) && c in s.calls && s.calls[c].phase.Leaving?
    ensures LocksHeld(AfterLeave(s, c))
  {
  }

  lemma LeaveStep(s: System, c: nat)
    requires Inv(s) && c in s.calls && s.calls[c].phase.Leaving?
    ensures Inv(AfterLeave(s, c))
  {
    LeaveKeepsCounts(s, c);
    LeaveKeepsSharing(s, c);
    LeaveLocks(s, c);
    OwnersAfterMove(s, AfterLeave(s, c), c);
  }

  lemma StepKeepsInv(s: System, a: Action)
    requires Inv(s) && Enabled(s, a)
    ensures Inv(Act(s, a))
  {
    var c := a.caller;
    match a
    case Begin(_, key, now) =>
      var hit := Cached(s.shared, key, now);
      BeginStep(s, c, key, if hit.Some? then Done(hit) else Missed);
    case JoinGate(_) => JoinStep(s, c);
    case Acquire(_) => AcquireStep(s, c);
    case Recheck(_, now) => RecheckStep(s, c, now);
    case FormFails(_) => InsideMove(s, c, Leaving(s.calls[c].phase.gate, None), s.shared.tokens);
    case Send(_) => InsideMove(s, c, Fetching(s.calls[c].phase.gate), s.shared.tokens);
    case FetchFails(_) => InsideMove(s, c, Leaving(s.calls[c].phase.gate, None), s.shared.tokens);
    case FetchSucceeds(_, value, ttl) =>
      InsideMove(s, c, Fetched(s.calls[c].phase.gate, value, ttl), s.shared.tokens);
    case Store(_, now, kept) => StoreStep(s, c, now, kept);
    case LeaveGate(_) => LeaveStep(s, c);
    case Unlock(_) => UnlockStep(s, c);
  }

  lemma {:induction false} RunKeepsInv(actions: seq<Action>)
    requires Run(actions).Some?
    ensures Inv(Run(actions).value)
  {
    if actions != [] {
      RunKeepsInv(actions[..|actions| - 1]);
      StepKeepsInv(Run(actions[..|actions| - 1]).value, actions[|actions| - 1]);
    }
  }

  /** For every interleaving: at most one token request per key is in flight. */
  lemma OneRequestPerKey(actions: seq<Action>, c: nat, d: nat)
    requires Run(actions).Some?
    requires var calls := Run(actions).value.calls;
             && c in calls && d in calls && calls[c].key == calls[d].key
             && calls[c].phase.Fetching? && calls[d].phase.Fetching?
    ensures c == d
  {
    RunKeepsInv(actions);
  }

  /** For every interleaving: a gate is in the map exactly while some caller has joined and
      not left it, and all of those callers share it. */
  lemma GateLivesWhileJoined(actions: seq<Action>, key: string)
    requires Run(actions).Some?
    ensures var s := Run(actions).value;
            && (key in s.shared.fetchMu <==>
                  exists c :: c in s.calls && s.calls[c].key == key && IsMember(s.calls[c].phase))
            && (forall c :: c in s.calls && s.calls[c].key == key && IsMember(s.calls[c].phase) ==>
                  s.calls[c].phase.gate == s.shared.fetchMu[key])
  {
    RunKeepsInv(actions);
    var s := Run(actions).value;
    if key in s.shared.fetchMu {
      var g := s.shared.fetchMu[key];
      assert Members(s, g) != {};
      var c :| c in Members(s, g);
      assert s.calls[c].key == key;
    }
  }

  /** When every call has returned, no gate is left, whether or not its fetch succeeded. */
  lemma QuiescentHasNoGates(actions: seq<Action>)
    requires Run(actions).Some?
    requires forall c :: c in Run(actions).value.calls ==> Run(actions).value.calls[c].phase.Done?
    ensures Run(actions).value.shared.fetchMu == map[] && Run(actions).value.holder == map[]
  {
    RunKeepsInv(actions);
    var s := Run(actions).value;
    forall k ensures k !in s.shared.fetchMu {
      GateLivesWhileJoined(actions, k);
    }
    assert s.shared.fetchMu.Keys == {} && s.holder.Keys == {};
  }

  /** No caller is ever handed a token that was fetched for another key. */
  lemma TokensStayWithTheirKey(actions: seq<Action>, c: nat)
    requires Run(actions).Some? && c in Run(actions).value.calls
    requires var p := Run(actions).value.calls[c].phase; p.Done? && p.result.Some?
    ensures Run(actions).value.calls[c].phase.result.value.fetchedFor == Run(actions).value.calls[c].key
  {
    RunKeepsInv(actions);
  }

  /** The next action of a call that does not wait for a lock. */
  function NextAction(s: System, c: nat): Action
    requires c in s.calls && !s.calls[c].phase.Done? && !s.calls[c].phase.Waiting? && !s.calls[c].phase.Fetched?
  {
    match s.calls[c].phase
    case Missed => JoinGate(c)
    case Holding(_) => Recheck(c, 0)
    case Preparing(_) => Send(c)
    case Fetching(_) => FetchFails(c)
    case Leaving(_, _) => LeaveGate(c)
    case Unlocking(_, _) => Unlock(c)
  }

  lemma {:induction false} PruneExists(before: map<string, Token>, now: int, live: map<string, Token>)
    returns (kept: map<string, Token>)
    requires |before| > MAX_CACHED_TOKENS && Submap(live, Live(before, now))
    requires |Live(before, now)| > MAX_CACHED_TOKENS ==> |live| >= MAX_CACHED_TOKENS
    requires |Live(before, now)| <= MAX_CACHED_TOKENS ==> live == Live(before, now)
    ensures Pruned(before, now, kept)
    decreases |live|
  {
    if |live| <= MAX_CACHED_TOKENS {
      kept := live;
    } else {
      assert live.Keys != {};
      var k :| k in live;
      RemoveOne(live, k);
      kept := PruneExists(before, now, live - {k});
    }
  }

  /** A call that waits for no lock can always take its next step. */
  lemma CanStep(s: System, c: nat) returns (a: Action)
    requires c in s.calls && !s.calls[c].phase.Done? && !s.calls[c].phase.Waiting?
    ensures Enabled(s, a) && !a.Begin?
  {
    if s.calls[c].phase.Fetched? {
      var before := WithFetched(s, c, 0);
      var kept := before;
      if |before| > MAX_CACHED_TOKENS { kept := PruneExists(before, 0, Live(before, 0)); }
      a := Store(c, 0, kept);
    } else {
      a := NextAction(s, c);
    }
  }

  lemma HolderIsNotWaiting(s: System, g: nat)
    requires LocksHeld(s) && g in s.holder
    ensures s.holder[g] in s.calls
    ensures !s.calls[s.holder[g]].phase.Done? && !s.calls[s.holder[g]].phase.Waiting?
  {
  }

  /** No deadlock: as long as some call has not returned, some call can take a step. */
  lemma SomeCallCanMove(actions: seq<Action>, c: nat) returns (a: Action)
    requires Run(actions).Some?
    requires c in Run(actions).value.calls && !Run(actions).value.calls[c].phase.Done?
    ensures Enabled(Run(actions).value, a) && !a.Begin?
  {
    RunKeepsInv(actions);
    var s := Run(actions).value;
    var p := s.calls[c].phase;
    if !p.Waiting? {
      a := CanStep(s, c);
    } else if p.gate !in s.holder {
      a := Acquire(c);
    } else {
      HolderIsNotWaiting(s, p.gate);
      a := CanStep(s, s.holder[p.gate]);
    }
  }

  // ---- no burst of requests ----

  /** The system before step r. */
  ghost function StateAt(actions: seq<Action>, r: nat): System
    requires r <= |actions|
  {
    var s := Run(actions[..r]);
    if s.Some? then s.value else IDLE
  }

  lemma {:induction false} RunPrefix(actions: seq<Action>, n: nat)
    requires Run(actions).Some? && n <= |actions|
    ensures Run(actions[..n]).Some?
  {
    if n == |actions| {
      assert actions[..n] == actions;
    } else {
      var init := actions[..|actions| - 1];
      assert init[..n] == actions[..n];
      RunPrefix(init, n);
    }
  }

  lemma StateStep(actions: seq<Action>, n: nat)
    requires Run(actions).Some? && n < |actions|
    ensures Enabled(StateAt(actions, n), actions[n])
    ensures StateAt(actions, n + 1) == Act(StateAt(actions, n), actions[n])
  {
    RunPrefix(actions, n + 1);
    assert actions[..n + 1][..n] == actions[..n];
  }

  lemma StateKeepsInv(actions: seq<Action>, n: nat)
    requires Run(actions).Some? && n <= |actions|
    ensures Inv(StateAt(actions, n))
  {
    RunPrefix(actions, n);
    RunKeepsInv(actions[..n]);
  }

  lemma OtherCallStays(s: System, a: Action, c: nat)
    requires Enabled(s, a) && a.caller != c
    ensures c in Act(s, a).calls <==> c in s.calls
    ensures c in s.calls ==> Act(s, a).calls[c] == s.calls[c]
  {
  }

  /** Step i sends a request for the key. */
  ghost predicate SendsFor(actions: seq<Action>, i: nat, key: string)
  {
    && i < |actions| && actions[i].Send?
    && actions[i].caller in StateAt(actions, i).calls && StateAt(actions, i).calls[actions[i].caller].key == key
  }

  /** What became of a token request. */
  datatype Fate = Open | Failed | Kept(token: Token)

  /** What one action makes of a request that is open. */
  ghost function FateAfter(s: System, a: Action, c: nat, key: string): Fate
  {
    if a == FetchFails(c) then Failed
    else if a.Store? && a.caller == c && c in s.calls && s.calls[c].phase.Fetched? then
      Kept(Obtained(key, s.calls[c].phase.value, s.calls[c].phase.ttl, a.now))
    else Open
  }

  /** What has become, before step n, of the request for the key sent at step i. */
  ghost function RequestFate(actions: seq<Action>, key: string, i: nat, n: nat): Fate
    requires i < n <= |actions|
  {
    if n == i + 1 then Open
    else
      var before := RequestFate(actions, key, i, n - 1);
      if before.Open? then FateAfter(StateAt(actions, n - 1), actions[n - 1], actions[i].caller, key) else before
  }

  /** The call is between its request and the end of it. */
  ghost predicate AtRequest(s: System, c: nat, key: string)
  {
    c in s.calls && s.calls[c].key == key && (s.calls[c].phase.Fetching? || s.calls[c].phase.Fetched?)
  }

  lemma OpenStep(s: System, a: Action, c: nat, key: string)
    requires Enabled(s, a) && AtRequest(s, c, key) && FateAfter(s, a, c, key).Open?
    ensures AtRequest(Act(s, a), c, key)
  {
    if a.caller != c { OtherCallStays(s, a, c); }
  }

  lemma {:induction false} OpenRequest(actions: seq<Action>, key: string, i: nat, n: nat)
    requires Run(actions).Some? && i < n <= |actions| && SendsFor(actions, i, key)
    requires RequestFate(actions, key, i, n).Open?
    ensures AtRequest(StateAt(actions, n), actions[i].caller, key)
  {
    StateStep(actions, n - 1);
    if n == i + 1 {
      SendOpens(StateAt(actions, i), actions[i].caller);
    } else {
      OpenRequest(actions, key, i, n - 1);
      OpenStep(StateAt(actions, n - 1), actions[n - 1], actions[i].caller, key);
    }
  }

  lemma SendOpens(s: System, c: nat)
    requires Enabled(s, Send(c))
    ensures AtRequest(Act(s, Send(c)), c, s.calls[c].key)
  {
  }

  ghost predicate PreparesAt(s: System, d: nat, key: string)
  {
    d in s.calls && s.calls[d].key == key && s.calls[d].phase.Preparing?
  }

  lemma OnlyRecheckPrepares(s: System, a: Action, d: nat, key: string)
    requires Enabled(s, a) && PreparesAt(Act(s, a), d, key) && a.caller == d
    ensures a.Recheck? && d in s.calls && s.calls[d].key == key && s.calls[d].phase.Holding?
    ensures Cached(s.shared, key, a.now).None?
  {
  }

  /** Step r is the look into the cache after which d has been preparing its request until n. */
  ghost predicate LookedAt(actions: seq<Action>, d: nat, key: string, n: nat, r: nat)
  {
    && r < n <= |actions| && actions[r].Recheck? && actions[r].caller == d
    && var s := StateAt(actions, r);
       && d in s.calls && s.calls[d].key == key && s.calls[d].phase.Holding?
       && Cached(s.shared, key, actions[r].now).None?
       && forall m :: r < m <= n ==> PreparesAt(StateAt(actions, m), d, key)
  }

  lemma {:induction false} PreparingLooked(actions: seq<Action>, d: nat, key: string, n: nat) returns (r: nat)
    requires Run(actions).Some? && n <= |actions| && PreparesAt(StateAt(actions, n), d, key)
    ensures LookedAt(actions, d, key, n, r)
  {
    assert actions[..0] == [];
    if actions[n - 1].caller == d {
      LooksNow(actions, d, key, n);
      r := n - 1;
    } else {
      PreparedBefore(actions, d, key, n);
      r := PreparingLooked(actions, d, key, n - 1);
      LookStays(actions, d, key, n, r);
    }
  }

  lemma LooksNow(actions: seq<Action>, d: nat, key: string, n: nat)
    requires Run(actions).Some? && 0 < n <= |actions| && PreparesAt(StateAt(actions, n), d, key)
    requires actions[n - 1].caller == d
    ensures LookedAt(actions, d, key, n, n - 1)
  {
    StateStep(actions, n - 1);
    OnlyRecheckPrepares(StateAt(actions, n - 1), actions[n - 1], d, key);
  }

  lemma PreparedBefore(actions: seq<Action>, d: nat, key: string, n: nat)
    requires Run(actions).Some? && 0 < n <= |actions| && PreparesAt(StateAt(actions, n), d, key)
    requires actions[n - 1].caller != d
    ensures PreparesAt(StateAt(actions, n - 1), d, key)
  {
    StateStep(actions, n - 1);
    OtherCallStays(StateAt(actions, n - 1), actions[n - 1], d);
  }

  lemma LookStays(actions: seq<Action>, d: nat, key: string, n: nat, r: nat)
    requires 0 < n <= |actions| && LookedAt(actions, d, key, n - 1, r) && PreparesAt(StateAt(actions, n), d, key)
    ensures LookedAt(actions, d, key, n, r)
  {
  }

  /** Two calls for one key that both hold their gate's lock are the same call. */
  lemma OneHolder(s: System, c: nat, d: nat)
    requires Inv(s) && c in s.calls && d in s.calls && s.calls[c].key == s.calls[d].key
    requires IsMember(s.calls[c].phase) && HoldsLock(s.calls[c].phase)
    requires IsMember(s.calls[d].phase) && HoldsLock(s.calls[d].phase)
    ensures c == d
  {
  }

  /** The second caller's look comes after the first request was sent. */
  lemma LookComesAfter(actions: seq<Action>, i: nat, j: nat, r: nat, key: string)
    requires Run(actions).Some? && i < j < |actions| && SendsFor(actions, i, key)
    requires LookedAt(actions, actions[j].caller, key, j, r)
    ensures i < r
  {
    var c, next := actions[i].caller, StateAt(actions, i + 1);
    StateStep(actions, i);
    SendOpens(StateAt(actions, i), c);
    assert AtRequest(next, c, key);
    if r < i {
      BothPrepare(actions, i, c, actions[j].caller, j, r, key);
      assert false;
    }
  }

  /** Two calls for one key that prepare at the same time are the same call. */
  lemma BothPrepare(actions: seq<Action>, i: nat, c: nat, d: nat, n: nat, r: nat, key: string)
    requires Run(actions).Some? && r < i < n && LookedAt(actions, d, key, n, r)
    requires PreparesAt(StateAt(actions, i), c, key)
    ensures c == d && PreparesAt(StateAt(actions, i + 1), d, key)
  {
    StateKeepsInv(actions, i);
    assert PreparesAt(StateAt(actions, i), d, key);
    OneHolder(StateAt(actions, i), c, d);
  }

  /** By then the first request has ended. */
  lemma FirstHasEnded(actions: seq<Action>, i: nat, j: nat, r: nat, key: string)
    requires Run(actions).Some? && i < r < j < |actions| && SendsFor(actions, i, key)
    requires LookedAt(actions, actions[j].caller, key, j, r)
    ensures !RequestFate(actions, key, i, r).Open?
  {
    StateKeepsInv(actions, r);
    if RequestFate(actions, key, i, r).Open? {
      OpenRequest(actions, key, i, r);
      OneHolder(StateAt(actions, r), actions[i].caller, actions[j].caller);
      assert false;
    }
  }

  /** Why the request for the key sent at step i did not serve the look at step r: it brought no
      token, or one that had run out, or one that is no longer kept. */
  ghost predicate NotServed(actions: seq<Action>, key: string, i: nat, r: nat)
    requires i < r < |actions| && actions[r].Recheck?
  {
    var fate, tokens := RequestFate(actions, key, i, r), StateAt(actions, r).shared.tokens;
    fate.Failed? ||
    (fate.Kept? && (fate.token.expires <= actions[r].now || key !in tokens || tokens[key] != fate.token))
  }

  /** For every interleaving: between two requests for one key, the second caller looked into
      the cache after the first request had ended, and that request had failed, or its token had
      run out by then or was pruned or replaced. */
  lemma SecondRequestHasCause(actions: seq<Action>, i: nat, j: nat, key: string) returns (r: nat)
    requires Run(actions).Some? && i < j && SendsFor(actions, i, key) && SendsFor(actions, j, key)
    ensures i < r < j && actions[r].Recheck? && actions[r].caller == actions[j].caller
    ensures NotServed(actions, key, i, r)
  {
    StateStep(actions, j);
    r := PreparingLooked(actions, actions[j].caller, key, j);
    LookComesAfter(actions, i, j, r, key);
    FirstHasEnded(actions, i, j, r, key);
  }

  // ---- tokens that do not outlive a minute ----

  /** One more action. */
  lemma Extended(actions: seq<Action>, s: System, a: Action) returns (longer: seq<Action>, s': System)
    requires Run(actions) == Some(s) && Enabled(s, a)
    ensures |longer| == |actions| + 1 && longer[|actions|] == a
    ensures forall i :: 0 <= i < |actions| ==> longer[i] == actions[i]
    ensures s' == Act(s, a) && Run(longer) == Some(s')
  {
    longer, s' := actions + [a], Act(s, a);
    assert longer[..|actions|] == actions;
  }

  /** Two callers of a key queue behind one gate. */
  lemma TwoQueue(key: string, now: int) returns (a: seq<Action>, s: System)
    ensures |a| == 4 && Run(a) == Some(s) && s.holder == map[] && s.shared.tokens == map[]
    ensures 0 in s.calls && s.calls[0] == Call(key, Waiting(0)) && 1 in s.calls && s.calls[1] == Call(key, Waiting(0))
    ensures key in s.shared.fetchMu && WaitersOf(s.shared, 0) == 2
  {
    a, s := [], IDLE;
    a, s := Extended(a, s, Begin(0, key, now));
    a, s := Extended(a, s, Begin(1, key, now));
    a, s := Extended(a, s, JoinGate(0));
    a, s := Extended(a, s, JoinGate(1));
  }

  /** The first one sends its request at step 6 and obtains a token. */
  lemma FirstFetches(key: string, now: int, ttl: int) returns (a: seq<Action>, s: System)
    ensures |a| == 8 && Run(a) == Some(s) && a[6] == Send(0) && 0 in s.holder && s.shared.tokens == map[]
    ensures 0 in s.calls && s.calls[0] == Call(key, Fetched(0, "token", ttl))
    ensures 1 in s.calls && s.calls[1] == Call(key, Waiting(0))
  {
    a, s := TwoQueue(key, now);
    a, s := Extended(a, s, Acquire(0));
    a, s := Extended(a, s, Recheck(0, now));
    a, s := Extended(a, s, Send(0));
    a, s := Extended(a, s, FetchSucceeds(0, "token", ttl));
  }

  /** It keeps the token and lets go of the gate. */
  lemma FirstLeaves(key: string, now: int, ttl: int) returns (a: seq<Action>, s: System)
    ensures |a| == 11 && Run(a) == Some(s) && a[6] == Send(0) && 0 !in s.holder
    ensures s.shared.tokens == map[key := Obtained(key, "token", ttl, now)]
    ensures 1 in s.calls && s.calls[1] == Call(key, Waiting(0))
  {
    a, s := FirstFetches(key, now, ttl);
    a, s := Extended(a, s, Store(0, now, map[key := Obtained(key, "token", ttl, now)]));
    a, s := Extended(a, s, LeaveGate(0));
    a, s := Extended(a, s, Unlock(0));
  }

  /** With a lifetime of at most a minute the token has run out when it is kept: the caller
      queued behind the first looks at that very instant and sends its own request. */
  lemma ShortTokenIsRefetched(key: string, now: int, ttl: int) returns (a: seq<Action>, s: System)
    requires ttl <= MINUTE
    ensures |a| == 14 && Run(a) == Some(s) && a[6] == Send(0) && a[13] == Send(1)
    ensures 1 in s.calls && s.calls[1] == Call(key, Fetching(0))
  {
    a, s := FirstLeaves(key, now, ttl);
    a, s := Extended(a, s, Acquire(1));
    a, s := Extended(a, s, Recheck(1, now));
    a, s := Extended(a, s, Send(1));
  }
}
