/**
 The token cache and the fields of the fetch gates: the sections the source runs under its
 cache lock.
 */
module TokenCache {
  import opened Wrappers

  const MAX_CACHED_TOKENS := 4096
  const MINUTE := 60_000_000_000

  /** fetchedFor records the key whose caller obtained the token. */
  datatype Token = Token(value: string, expires: int, fetchedFor: string)

  /** The fields guarded by the cache lock. A gate is an identity with a waiter count. */
  datatype Shared = Shared(tokens: map<string, Token>, fetchMu: map<string, nat>, waiters: map<nat, int>, created: nat)

  const FRESH := Shared(map[], map[], map[], 0)

  /** A token just fetched, to be used until a minute before the endpoint's lifetime is over. */
  function Obtained(key: string, value: string, ttl: int, now: int): Token
  {
    Token(value, now + ttl - MINUTE, key)
  }

  /** cached. */
  function Cached(s: Shared, key: string, now: int): Option<Token>
  {
    if key in s.tokens && now < s.tokens[key].expires then Some(s.tokens[key]) else None
  }

  /** The gate a caller joins, and the state once it has. */
  function GateFor(s: Shared, key: string): nat { if key in s.fetchMu then s.fetchMu[key] else s.created }

  function WaitersOf(s: Shared, gate: nat): int { if gate in s.waiters then s.waiters[gate] else 0 }

  function Joined(s: Shared, key: string): Shared
  {
    var g := GateFor(s, key);
    var count := if key in s.fetchMu then WaitersOf(s, g) + 1 else 1;
    s.(fetchMu := s.fetchMu[key := g], waiters := s.waiters[g := count],
       created := if key in s.fetchMu then s.created else s.created + 1)
  }

  function Left(s: Shared, key: string, gate: nat): Shared
  {
    var count := WaitersOf(s, gate) - 1;
    s.(waiters := s.waiters[gate := count],
       fetchMu := if count == 0 then s.fetchMu - {key} else s.fetchMu)
  }

  function Live(tokens: map<string, Token>, now: int): map<string, Token>
  {
    map k | k in tokens && now < tokens[k].expires :: tokens[k]
  }

  ghost predicate Submap(a: map<string, Token>, b: map<string, Token>)
  {
    forall k :: k in a ==> k in b && a[k] == b[k]
  }

  /** What pruneLocked may leave of a cache: nothing changes within the cap; past it expired
      tokens go, and live ones too only as far as they do not fit. */
  ghost predicate Pruned(before: map<string, Token>, now: int, after: map<string, Token>)
  {
    if |before| <= MAX_CACHED_TOKENS then after == before
    else
      && Submap(after, Live(before, now)) && |after| <= MAX_CACHED_TOKENS
      && (|Live(before, now)| <= MAX_CACHED_TOKENS ==> after == Live(before, now))
      && (|Live(before, now)| > MAX_CACHED_TOKENS ==> |after| == MAX_CACHED_TOKENS)
  }

  class Credentials {
    var tokens: map<string, Token>
    var fetchMu: map<string, nat>
    var waiters: map<nat, int>
    var created: nat

    ghost function State(): Shared
      reads this
    {
      Shared(tokens, fetchMu, waiters, created)
    }

    constructor ()
      ensures State() == FRESH
    {
      tokens, fetchMu, waiters, created := map[], map[], map[], 0;
    }

    method Lookup(key: string, now: int) returns (t: Option<Token>)
      ensures t == Cached(State(), key, now)
    {
      if key in tokens && now < tokens[key].expires { return Some(tokens[key]); }
      return None;
    }

    method Join(key: string) returns (gate: nat)
      modifies this
      ensures State() == Joined(old(State()), key) && gate == GateFor(old(State()), key)
    {
      if key !in fetchMu {
        fetchMu := fetchMu[key := created];
        waiters := waiters[created := 0];
        created := created + 1;
      }
      gate := fetchMu[key];
      waiters := waiters[gate := (if gate in waiters then waiters[gate] else 0) + 1];
      assert fetchMu == old(fetchMu)[key := gate];
    }

    method Leave(key: string, gate: nat)
      modifies this
      ensures State() == Left(old(State()), key, gate)
    {
      var count := (if gate in waiters then waiters[gate] else 0) - 1;
      waiters := waiters[gate := count];
      if count == 0 { fetchMu := fetchMu - {key}; }
    }

    /** pruneLocked: expired entries first, then any until the rest fits. */
    method PruneLocked(now: int)
      modifies this`tokens
      ensures Pruned(old(tokens), now, tokens)
    {
      if |tokens| <= MAX_CACHED_TOKENS { return; }
      ghost var live := Live(tokens, now);
      var keys := tokens.Keys;
      while keys != {}
        invariant keys <= tokens.Keys
        invariant Submap(tokens, old(tokens)) && Submap(live, tokens)
        invariant forall k :: k in tokens && k !in keys ==> k in live
        decreases keys
      {
        var k :| k in keys;
        keys := keys - {k};
        if tokens[k].expires <= now { tokens := tokens - {k}; }
      }
      assert tokens == live;
      while |tokens| > MAX_CACHED_TOKENS
        invariant Submap(tokens, live)
        invariant |live| <= MAX_CACHED_TOKENS ==> tokens == live
        invariant |live| > MAX_CACHED_TOKENS ==> |tokens| >= MAX_CACHED_TOKENS
        decreases |tokens|
      {
        assert tokens.Keys != {};
        var k :| k in tokens;
        RemoveOne(tokens, k);
        tokens := tokens - {k};
      }
    }

    /** Caching a fetched token until a minute before it expires. */
    method Keep(key: string, value: string, ttl: int, now: int)
      modifies this`tokens
      ensures Pruned(old(tokens)[key := Obtained(key, value, ttl, now)], now, tokens)
    {
      tokens := tokens[key := Token(value, now + (ttl - MINUTE), key)];
      PruneLocked(now);
    }
  }

  lemma RemoveOne(m: map<string, Token>, k: string)
    requires k in m
    ensures |m - {k}| == |m| - 1
  {
    assert (m - {k}).Keys == m.Keys - {k};
  }
}
