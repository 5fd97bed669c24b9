/**
 What a cachedFetch returns, over every run of the gates: the token its own request brought, one
 it found unexpired in the cache, or nothing after its own request failed.
 */
module TokenResults {
  import opened Wrappers
  import opened TokenCache
  import opened TokenGate

  predicate Begins(a: Action, c: nat) { a.Begin? && a.caller == c }

  /** The call's current life began at step b. */
  ghost predicate BeganAt(actions: seq<Action>, c: nat, key: string, b: nat, n: nat)
  {
    && b < n <= |actions| && Begins(actions[b], c) && actions[b].key == key
    && forall j :: b < j < n ==> !Begins(actions[j], c)
  }

  /** Step r of the call looked into the cache and found the token, unexpired. */
  ghost predicate FoundAt(actions: seq<Action>, c: nat, key: string, t: Token, r: nat)
  {
    && r < |actions| && actions[r].caller == c && (actions[r].Begin? || actions[r].Recheck?)
    && var tokens := StateAt(actions, r).shared.tokens;
       key in tokens && tokens[key] == t && actions[r].now < t.expires
  }

  /** Step i brought the call this value, and step j kept it for this key. */
  ghost predicate BroughtAt(actions: seq<Action>, c: nat, key: string, t: Token, i: nat, j: nat)
  {
    && i < j < |actions| && actions[i].FetchSucceeds? && actions[i].caller == c && actions[i].value == t.value
    && actions[j].Store? && actions[j].caller == c && t.fetchedFor == key
    && t.expires == actions[j].now + actions[i].ttl - 60_000_000_000
  }

  predicate Fails(a: Action, c: nat) { a == FormFails(c) || a == FetchFails(c) }

  /** Why a call that began at step b has this result by step n. */
  ghost predicate Justified(actions: seq<Action>, c: nat, key: string, b: nat, n: nat, result: Option<Token>)
  {
    n <= |actions| &&
    match result
    case None => exists i :: b < i < n && Fails(actions[i], c)
    case Some(t) =>
      || (exists r: nat :: b <= r < n && FoundAt(actions, c, key, t, r))
      || (exists i: nat, j: nat :: b < i && j < n && BroughtAt(actions, c, key, t, i, j))
  }

  ghost predicate PhaseJustified(actions: seq<Action>, c: nat, b: nat, n: nat, call: Call)
  {
    n <= |actions| &&
    match call.phase
    case Fetched(_, v, ttl) => exists i :: b < i < n && actions[i] == FetchSucceeds(c, v, ttl)
    case Leaving(_, result) => Justified(actions, c, call.key, b, n, result)
    case Unlocking(_, result) => Justified(actions, c, call.key, b, n, result)
    case Done(result) => Justified(actions, c, call.key, b, n, result)
    case _ => true
  }

  ghost predicate CallJustified(actions: seq<Action>, c: nat, b: nat, n: nat)
    requires n <= |actions|
  {
    && c in StateAt(actions, n).calls && BeganAt(actions, c, StateAt(actions, n).calls[c].key, b, n)
    && PhaseJustified(actions, c, b, n, StateAt(actions, n).calls[c])
  }

  lemma LaterJustified(actions: seq<Action>, c: nat, key: string, b: nat, n: nat, result: Option<Token>)
    requires n < |actions| && Justified(actions, c, key, b, n, result)
    ensures Justified(actions, c, key, b, n + 1, result)
  {
  }

  /** A step of another call changes nothing. */
  lemma OthersJustified(actions: seq<Action>, c: nat, b: nat, n: nat)
    requires Run(actions).Some? && n < |actions| && actions[n].caller != c && CallJustified(actions, c, b, n)
    ensures CallJustified(actions, c, b, n + 1)
  {
    StateStep(actions, n);
    OtherCallStays(StateAt(actions, n), actions[n], c);
    var call := StateAt(actions, n).calls[c];
    match call.phase
    case Leaving(_, result) => LaterJustified(actions, c, call.key, b, n, result);
    case Unlocking(_, result) => LaterJustified(actions, c, call.key, b, n, result);
    case Done(result) => LaterJustified(actions, c, call.key, b, n, result);
    case _ =>
  }

  lemma BeginJustified(actions: seq<Action>, n: nat)
    requires Run(actions).Some? && n < |actions| && actions[n].Begin?
    ensures CallJustified(actions, actions[n].caller, n, n + 1)
  {
    StateStep(actions, n);
    var c, key := actions[n].caller, actions[n].key;
    var hit := Cached(StateAt(actions, n).shared, key, actions[n].now);
    if hit.Some? { assert FoundAt(actions, c, key, hit.value, n); }
  }

  lemma RecheckJustified(actions: seq<Action>, b: nat, n: nat)
    requires Run(actions).Some? && n < |actions| && actions[n].Recheck?
    requires CallJustified(actions, actions[n].caller, b, n)
    ensures CallJustified(actions, actions[n].caller, b, n + 1)
  {
    StateStep(actions, n);
    var c, s := actions[n].caller, StateAt(actions, n);
    var key := s.calls[c].key;
    var hit := Cached(s.shared, key, actions[n].now);
    if hit.Some? { assert FoundAt(actions, c, key, hit.value, n); }
  }

  lemma StoreMoves(s: System, a: Action)
    requires Enabled(s, a) && a.Store?
    ensures var key, p := s.calls[a.caller].key, s.calls[a.caller].phase;
            a.caller in Act(s, a).calls &&
            Act(s, a).calls[a.caller] == Call(key, Leaving(p.gate, Some(Obtained(key, p.value, p.ttl, a.now))))
  {
  }

  lemma KeptIsBrought(actions: seq<Action>, c: nat, key: string, b: nat, n: nat, gate: nat, value: string, ttl: int)
    requires n < |actions| && actions[n].Store? && actions[n].caller == c
    requires PhaseJustified(actions, c, b, n, Call(key, Fetched(gate, value, ttl)))
    ensures Justified(actions, c, key, b, n + 1, Some(Obtained(key, value, ttl, actions[n].now)))
  {
    var i :| b < i < n && actions[i] == FetchSucceeds(c, value, ttl);
    assert BroughtAt(actions, c, key, Obtained(key, value, ttl, actions[n].now), i, n);
  }

  lemma StoreAt(actions: seq<Action>, n: nat)
    requires Run(actions).Some? && n < |actions| && actions[n].Store?
    ensures var c, s := actions[n].caller, StateAt(actions, n);
            && c in s.calls && s.calls[c].phase.Fetched? && c in StateAt(actions, n + 1).calls
            && var key, p := s.calls[c].key, s.calls[c].phase;
               StateAt(actions, n + 1).calls[c] ==
               Call(key, Leaving(p.gate, Some(Obtained(key, p.value, p.ttl, actions[n].now))))
  {
    StateStep(actions, n);
    StoreMoves(StateAt(actions, n), actions[n]);
  }

  lemma StoreJustified(actions: seq<Action>, b: nat, n: nat)
    requires Run(actions).Some? && n < |actions| && actions[n].Store?
    requires CallJustified(actions, actions[n].caller, b, n)
    ensures CallJustified(actions, actions[n].caller, b, n + 1)
  {
    StoreAt(actions, n);
    var call := StateAt(actions, n).calls[actions[n].caller];
    KeptIsBrought(actions, actions[n].caller, call.key, b, n, call.phase.gate, call.phase.value, call.phase.ttl);
  }

  /** The steps that decide nothing. */
  lemma PlainJustified(actions: seq<Action>, b: nat, n: nat)
    requires Run(actions).Some? && n < |actions|
    requires actions[n].JoinGate? || actions[n].Acquire? || actions[n].Send? || actions[n].FetchSucceeds?
    requires CallJustified(actions, actions[n].caller, b, n)
    ensures CallJustified(actions, actions[n].caller, b, n + 1)
  {
    StateStep(actions, n);
  }

  lemma FailureJustified(actions: seq<Action>, b: nat, n: nat)
    requires Run(actions).Some? && n < |actions| && Fails(actions[n], actions[n].caller)
    requires CallJustified(actions, actions[n].caller, b, n)
    ensures CallJustified(actions, actions[n].caller, b, n + 1)
  {
    StateStep(actions, n);
    assert Fails(actions[n], actions[n].caller);
  }

  lemma LeavesAt(actions: seq<Action>, n: nat)
    requires Run(actions).Some? && n < |actions| && (actions[n].LeaveGate? || actions[n].Unlock?)
    ensures var c, s := actions[n].caller, StateAt(actions, n);
            && c in s.calls && (s.calls[c].phase.Leaving? || s.calls[c].phase.Unlocking?)
            && c in StateAt(actions, n + 1).calls
            && var next := StateAt(actions, n + 1).calls[c];
               && next.key == s.calls[c].key && (next.phase.Unlocking? || next.phase.Done?)
               && next.phase.result == s.calls[c].phase.result
  {
    StateStep(actions, n);
  }

  lemma ResultStays(actions: seq<Action>, c: nat, b: nat, n: nat, call: Call, next: Call)
    requires n < |actions| && PhaseJustified(actions, c, b, n, call) && next.key == call.key
    requires call.phase.Leaving? || call.phase.Unlocking?
    requires (next.phase.Unlocking? || next.phase.Done?) && next.phase.result == call.phase.result
    ensures PhaseJustified(actions, c, b, n + 1, next)
  {
    LaterJustified(actions, c, call.key, b, n, call.phase.result);
  }

  lemma LeavingJustified(actions: seq<Action>, b: nat, n: nat)
    requires Run(actions).Some? && n < |actions| && (actions[n].LeaveGate? || actions[n].Unlock?)
    requires CallJustified(actions, actions[n].caller, b, n)
    ensures CallJustified(actions, actions[n].caller, b, n + 1)
  {
    LeavesAt(actions, n);
    var call := StateAt(actions, n).calls[actions[n].caller];
    ResultStays(actions, actions[n].caller, b, n, call, StateAt(actions, n + 1).calls[actions[n].caller]);
  }

  lemma OwnStepJustified(actions: seq<Action>, b: nat, n: nat)
    requires Run(actions).Some? && n < |actions| && !actions[n].Begin?
    requires CallJustified(actions, actions[n].caller, b, n)
    ensures CallJustified(actions, actions[n].caller, b, n + 1)
  {
    match actions[n]
    case Recheck(_, _) => RecheckJustified(actions, b, n);
    case Store(_, _, _) => StoreJustified(actions, b, n);
    case FormFails(_) => FailureJustified(actions, b, n);
    case FetchFails(_) => FailureJustified(actions, b, n);
    case LeaveGate(_) => LeavingJustified(actions, b, n);
    case Unlock(_) => LeavingJustified(actions, b, n);
    case _ => PlainJustified(actions, b, n);
  }

  lemma {:induction false} CallsAreJustified(actions: seq<Action>, c: nat, n: nat) returns (b: nat)
    requires Run(actions).Some? && n <= |actions| && c in StateAt(actions, n).calls
    ensures CallJustified(actions, c, b, n)
  {
    assert actions[..0] == [];
    StateStep(actions, n - 1);
    if Begins(actions[n - 1], c) {
      b := n - 1;
      BeginJustified(actions, n - 1);
    } else if actions[n - 1].caller == c {
      b := CallsAreJustified(actions, c, n - 1);
      OwnStepJustified(actions, b, n - 1);
    } else {
      OtherCallStays(StateAt(actions, n - 1), actions[n - 1], c);
      b := CallsAreJustified(actions, c, n - 1);
      OthersJustified(actions, c, b, n - 1);
    }
  }

  /** Over every run: a call that has returned was handed a token it found in the cache under its
      key, unexpired when it began or when it looked again, or the one its own request brought;
      and nothing only after its own request had failed. */
  lemma ResultIsAccountedFor(actions: seq<Action>, c: nat) returns (b: nat)
    requires Run(actions).Some? && c in Run(actions).value.calls && Run(actions).value.calls[c].phase.Done?
    ensures var call := Run(actions).value.calls[c];
            && BeganAt(actions, c, call.key, b, |actions|)
            && match call.phase.result
               case None => exists i :: b < i < |actions| && Fails(actions[i], c)
               case Some(t) =>
                 || (exists r: nat :: b <= r && FoundAt(actions, c, call.key, t, r))
                 || (exists i: nat, j: nat :: b < i && BroughtAt(actions, c, call.key, t, i, j))
  {
    assert actions[..|actions|] == actions;
    b := CallsAreJustified(actions, c, |actions|);
  }

  // ---- what a request brings is returned ----

  predicate Carries(s: System, c: nat, value: string)
  {
    c in s.calls &&
    match s.calls[c].phase
    case Fetched(_, v, _) => v == value
    case Leaving(_, r) => r.Some? && r.value.value == value
    case Unlocking(_, r) => r.Some? && r.value.value == value
    case Done(r) => r.Some? && r.value.value == value
    case _ => false
  }

  lemma CarriesOn(s: System, a: Action, c: nat, value: string)
    requires Enabled(s, a) && Carries(s, c, value) && !Begins(a, c)
    ensures Carries(Act(s, a), c, value)
  {
    if a.caller != c { OtherCallStays(s, a, c); }
  }

  lemma FetchCarries(s: System, c: nat, value: string, ttl: int)
    requires Enabled(s, FetchSucceeds(c, value, ttl))
    ensures Carries(Act(s, FetchSucceeds(c, value, ttl)), c, value)
  {
  }

  lemma {:induction false} BroughtIsCarried(actions: seq<Action>, i: nat, n: nat)
    requires Run(actions).Some? && i < n <= |actions| && actions[i].FetchSucceeds?
    requires forall j :: i < j < n ==> !Begins(actions[j], actions[i].caller)
    ensures Carries(StateAt(actions, n), actions[i].caller, actions[i].value)
  {
    StateStep(actions, n - 1);
    if n == i + 1 {
      FetchCarries(StateAt(actions, i), actions[i].caller, actions[i].value, actions[i].ttl);
    } else {
      BroughtIsCarried(actions, i, n - 1);
      CarriesOn(StateAt(actions, n - 1), actions[n - 1], actions[i].caller, actions[i].value);
    }
  }

  /** Over every run: a call whose token request succeeded returns what that brought. */
  lemma FetchIsReturned(actions: seq<Action>, i: nat)
    requires Run(actions).Some? && i < |actions| && actions[i].FetchSucceeds?
    requires forall j :: i < j < |actions| ==> !Begins(actions[j], actions[i].caller)
    ensures actions[i].caller in Run(actions).value.calls
    ensures var p := Run(actions).value.calls[actions[i].caller].phase;
            p.Done? ==> p.result.Some? && p.result.value.value == actions[i].value
  {
    BroughtIsCarried(actions, i, |actions|);
    assert actions[..|actions|] == actions;
  }

  // ---- one call in the source's form ----

  /** Where a run of the gates stands for a call with nobody else in between. */
  predicate Stands(s: System, c: nat, call: Call, shared: Shared, holder: map<nat, nat>)
  {
    c in s.calls && s.calls[c] == call && s.shared == shared && s.holder == holder
  }

  /** Not cached: it joins its gate. */
  lemma JoinSteps(before: seq<Action>, s: System, c: nat, key: string, now: int)
    returns (after: seq<Action>, t: System)
    requires Run(before) == Some(s) && c !in s.calls && Cached(s.shared, key, now).None?
    ensures Run(after) == Some(t) && before <= after
    ensures Stands(t, c, Call(key, Waiting(GateFor(s.shared, key))), Joined(s.shared, key), s.holder)
  {
    after, t := Extended(before, s, Begin(c, key, now));
    after, t := Extended(after, t, JoinGate(c));
  }

  /** The gate's lock is free: it looks again. */
  lemma LookSteps(before: seq<Action>, s: System, c: nat, key: string, g: nat, now: int)
    returns (after: seq<Action>, t: System)
    requires Run(before) == Some(s) && c in s.calls && s.calls[c] == Call(key, Waiting(g)) && g !in s.holder
    ensures Run(after) == Some(t) && before <= after
    ensures var hit := Cached(s.shared, key, now);
            Stands(t, c, Call(key, if hit.Some? then Leaving(g, hit) else Preparing(g)), s.shared, s.holder[g := c])
  {
    after, t := Extended(before, s, Acquire(c));
    after, t := Extended(after, t, Recheck(c, now));
  }

  /** Its request fails: the form cannot be built, or the endpoint refuses. */
  lemma FailSteps(before: seq<Action>, s: System, c: nat, key: string, g: nat, form: bool)
    returns (after: seq<Action>, t: System)
    requires Run(before) == Some(s) && c in s.calls && s.calls[c] == Call(key, Preparing(g))
    ensures Run(after) == Some(t) && before <= after
    ensures Stands(t, c, Call(key, Leaving(g, None)), s.shared, s.holder)
  {
    if !form {
      after, t := Extended(before, s, FormFails(c));
    } else {
      after, t := Extended(before, s, Send(c));
      after, t := Extended(after, t, FetchFails(c));
    }
  }

  lemma FetchSteps(before: seq<Action>, s: System, c: nat, key: string, g: nat, value: string, ttl: int)
    returns (after: seq<Action>, t: System)
    requires Run(before) == Some(s) && c in s.calls && s.calls[c] == Call(key, Preparing(g))
    ensures Run(after) == Some(t) && before <= after
    ensures Stands(t, c, Call(key, Fetched(g, value, ttl)), s.shared, s.holder)
  {
    after, t := Extended(before, s, Send(c));
    after, t := Extended(after, t, FetchSucceeds(c, value, ttl));
  }

  lemma KeepSteps(before: seq<Action>, s: System, c: nat, key: string, g: nat, value: string, ttl: int, now: int,
                  kept: map<string, Token>)
    returns (after: seq<Action>, t: System)
    requires Run(before) == Some(s) && c in s.calls && s.calls[c] == Call(key, Fetched(g, value, ttl))
    requires Pruned(s.shared.tokens[key := Obtained(key, value, ttl, now)], now, kept)
    ensures Run(after) == Some(t) && before <= after
    ensures Stands(t, c, Call(key, Leaving(g, Some(Obtained(key, value, ttl, now)))),
                   s.shared.(tokens := kept), s.holder)
  {
    after, t := Extended(before, s, Store(c, now, kept));
  }

  lemma LeaveSteps(before: seq<Action>, s: System, c: nat, key: string, g: nat, result: Option<Token>)
    returns (after: seq<Action>, t: System)
    requires Run(before) == Some(s) && c in s.calls && s.calls[c] == Call(key, Leaving(g, result))
    ensures Run(after) == Some(t) && before <= after
    ensures Stands(t, c, Call(key, Done(result)), Left(s.shared, key, g), s.holder - {g})
  {
    after, t := Extended(before, s, LeaveGate(c));
    after, t := Extended(after, t, Unlock(c));
  }

  /** Behind its gate for the first time: what it sees there, and where it stands. */
  lemma GateSteps(before: seq<Action>, s: System, c: nat, key: string, first: int, second: int)
    returns (after: seq<Action>, t: System)
    requires Run(before) == Some(s) && c !in s.calls && Cached(s.shared, key, first).None?
    requires GateFor(s.shared, key) !in s.holder
    ensures Run(after) == Some(t) && before <= after
    ensures var g, hit := GateFor(s.shared, key), Cached(s.shared, key, second);
            Stands(t, c, Call(key, if hit.Some? then Leaving(g, hit) else Preparing(g)),
                   Joined(s.shared, key), s.holder[g := c])
  {
    after, t := JoinSteps(before, s, c, key, first);
    after, t := LookSteps(after, t, c, key, GateFor(s.shared, key), second);
  }

  /** All steps of a call that finds the token once it holds the lock. */
  lemma HitSteps(before: seq<Action>, s: System, c: nat, key: string, first: int, second: int)
    returns (after: seq<Action>, t: System)
    requires Run(before) == Some(s) && c !in s.calls && Cached(s.shared, key, first).None?
    requires GateFor(s.shared, key) !in s.holder && Cached(s.shared, key, second).Some?
    ensures Run(after) == Some(t) && before <= after
    ensures t.shared == Left(Joined(s.shared, key), key, GateFor(s.shared, key))
    ensures c in t.calls && t.calls[c].phase == Done(Cached(s.shared, key, second))
  {
    after, t := GateSteps(before, s, c, key, first, second);
    after, t := LeaveSteps(after, t, c, key, GateFor(s.shared, key), Cached(s.shared, key, second));
  }

  /** All steps of a call whose request fails. */
  lemma FailedSteps(before: seq<Action>, s: System, c: nat, key: string, first: int, second: int, form: bool)
    returns (after: seq<Action>, t: System)
    requires Run(before) == Some(s) && c !in s.calls && Cached(s.shared, key, first).None?
    requires GateFor(s.shared, key) !in s.holder && Cached(s.shared, key, second).None?
    ensures Run(after) == Some(t) && before <= after
    ensures t.shared == Left(Joined(s.shared, key), key, GateFor(s.shared, key))
    ensures c in t.calls && t.calls[c].phase == Done(None)
  {
    after, t := GateSteps(before, s, c, key, first, second);
    after, t := FailSteps(after, t, c, key, GateFor(s.shared, key), form);
    after, t := LeaveSteps(after, t, c, key, GateFor(s.shared, key), None);
  }

  /** All steps of a call whose request brings a token. */
  lemma BroughtSteps(before: seq<Action>, s: System, c: nat, key: string, first: int, second: int,
                     value: string, ttl: int, now: int, kept: map<string, Token>)
    returns (after: seq<Action>, t: System)
    requires Run(before) == Some(s) && c !in s.calls && Cached(s.shared, key, first).None?
    requires GateFor(s.shared, key) !in s.holder && Cached(s.shared, key, second).None?
    requires Pruned(s.shared.tokens[key := Obtained(key, value, ttl, now)], now, kept)
    ensures Run(after) == Some(t) && before <= after
    ensures t.shared == Left(Joined(s.shared, key).(tokens := kept), key, GateFor(s.shared, key))
    ensures c in t.calls && t.calls[c].phase == Done(Some(Obtained(key, value, ttl, now)))
  {
    var g := GateFor(s.shared, key);
    after, t := GateSteps(before, s, c, key, first, second);
    after, t := FetchSteps(after, t, c, key, g, value, ttl);
    after, t := KeepSteps(after, t, c, key, g, value, ttl, now, kept);
    after, t := LeaveSteps(after, t, c, key, g, Some(Obtained(key, value, ttl, now)));
  }

  /** Joining and leaving alone leaves the gates as they were. */
  lemma JoinedAndLeft(before: seq<Action>, key: string)
    requires Run(before).Some?
    ensures var s := Run(before).value.shared;
            Left(Joined(s, key), key, GateFor(s, key)).fetchMu == s.fetchMu
  {
    RunKeepsInv(before);
    var s := Run(before).value;
    if key in s.shared.fetchMu { assert WaitersOf(s.shared, s.shared.fetchMu[key]) > 0; }
  }

  lemma GateIsFree(before: seq<Action>, key: string)
    requires Run(before).Some?
    requires var s := Run(before).value; key in s.shared.fetchMu ==> s.shared.fetchMu[key] !in s.holder
    ensures var s := Run(before).value; GateFor(s.shared, key) !in s.holder
  {
    RunKeepsInv(before);
  }

  /** The call is over and returned this. */
  predicate Returned(s: System, c: nat, value: Option<string>)
  {
    && c in s.calls && s.calls[c].phase.Done?
    && var result := s.calls[c].phase.result;
       value == if result.None? then None else Some(result.value.value)
  }

  /** What a call that finds no token returns, and the cache after it. */
  ghost predicate Fetches(tokens: map<string, Token>, tokens': map<string, Token>, key: string, form: bool,
                          fetch: Option<(string, int)>, now: int, value: Option<string>)
  {
    if !form || fetch.None? then value.None? && tokens' == tokens
    else
      && value == Some(fetch.value.0)
      && Pruned(tokens[key := Obtained(key, fetch.value.0, fetch.value.1, now)], now, tokens')
  }

  predicate HasUnexpired(tokens: map<string, Token>, key: string, now: int)
  {
    key in tokens && now < tokens[key].expires
  }

  /** The rest of cachedFetch after a miss at the first look. */
  method FetchBehindGate(creds: Credentials, key: string, ghost first: int, second: int, form: bool,
                         fetch: Option<(string, int)>, now: int, ghost c: nat, ghost before: seq<Action>)
    returns (value: Option<string>, ghost after: seq<Action>)
    requires Run(before).Some? && Run(before).value.shared == creds.State() && c !in Run(before).value.calls
    requires key in creds.fetchMu ==> creds.fetchMu[key] !in Run(before).value.holder
    requires !HasUnexpired(creds.tokens, key, first)
    modifies creds
    ensures Run(after).Some? && Run(after).value.shared == creds.State() && before <= after
    ensures Returned(Run(after).value, c, value) && creds.fetchMu == old(creds.fetchMu)
    ensures HasUnexpired(old(creds.tokens), key, second) ==>
              value == Some(old(creds.tokens)[key].value) && creds.tokens == old(creds.tokens)
    ensures !HasUnexpired(old(creds.tokens), key, second) ==>
              Fetches(old(creds.tokens), creds.tokens, key, form, fetch, now, value)
  {
    ghost var s := Run(before).value;
    GateIsFree(before, key);
    JoinedAndLeft(before, key);
    var gate := creds.Join(key);
    var cached := creds.Lookup(key, second);
    if cached.Some? {
      creds.Leave(key, gate);
      after, s := HitSteps(before, s, c, key, first, second);
      return Some(cached.value.value), after;
    }
    if !form || fetch.None? {
      creds.Leave(key, gate);
      after, s := FailedSteps(before, s, c, key, first, second, form);
      return None, after;
    }
    var (tok, ttl) := fetch.value;
    creds.Keep(key, tok, ttl, now);
    ghost var kept := creds.tokens;
    creds.Leave(key, gate);
    after, s := BroughtSteps(before, s, c, key, first, second, tok, ttl, now, kept);
    return Some(tok), after;
  }

  /** cachedFetch with nobody else in between and its gate's lock free. The clock is read at the
      first look, at the second, and when the token is kept; form and fetch are what building the
      request and the token endpoint yield. The ghost arguments are a run of the gates that led
      to these fields; what is returned extends it by the steps of this one call. */
  method CachedFetch(creds: Credentials, key: string, first: int, second: int, form: bool,
                     fetch: Option<(string, int)>, now: int, ghost c: nat, ghost before: seq<Action>)
    returns (value: Option<string>, ghost after: seq<Action>)
    requires Run(before).Some? && Run(before).value.shared == creds.State() && c !in Run(before).value.calls
    requires key in creds.fetchMu ==> creds.fetchMu[key] !in Run(before).value.holder
    modifies creds
    ensures Run(after).Some? && Run(after).value.shared == creds.State() && before <= after
    ensures Returned(Run(after).value, c, value) && creds.fetchMu == old(creds.fetchMu)
    ensures HasUnexpired(old(creds.tokens), key, first) || HasUnexpired(old(creds.tokens), key, second) ==>
              value == Some(old(creds.tokens)[key].value) && creds.tokens == old(creds.tokens)
    ensures !HasUnexpired(old(creds.tokens), key, first) && !HasUnexpired(old(creds.tokens), key, second) ==>
              Fetches(old(creds.tokens), creds.tokens, key, form, fetch, now, value)
  {
    var cached := creds.Lookup(key, first);
    if cached.Some? {
      ghost var s;
      after, s := Extended(before, Run(before).value, Begin(c, key, first));
      return Some(cached.value.value), after;
    }
    value, after := FetchBehindGate(creds, key, first, second, form, fetch, now, c, before);
  }
}
