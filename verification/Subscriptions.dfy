/**
 The gateway's resource subscriptions: which downstream sessions hold which URI, and how
 many each session holds. Every operation below is one section under the subscription lock.
 */
module Subscriptions {

  datatype Table = Table(subscribers: map<string, set<string>>, counts: map<string, int>)

  const EMPTY := Table(map[], map[])

  predicate Holds(t: Table, uri: string, session: string)
  {
    uri in t.subscribers && session in t.subscribers[uri]
  }

  function UrisOf(t: Table, session: string): set<string>
  {
    set uri | uri in t.subscribers && session in t.subscribers[uri]
  }

  /** Go's read of a missing key. */
  function CountOf(t: Table, session: string): int
  {
    if session in t.counts then t.counts[session] else 0
  }

  /** The two maps agree: a session's count is the number of URIs it holds and is within
      the cap; no count is zero and no subscriber set is empty. */
  ghost predicate Consistent(t: Table, cap: int)
  {
    && (forall uri :: uri in t.subscribers ==> t.subscribers[uri] != {})
    && (forall s :: CountOf(t, s) == |UrisOf(t, s)|)
    && (forall s :: s in t.counts ==> 0 < t.counts[s] <= cap)
  }

  function Without(t: Table, uri: string, session: string): map<string, set<string>>
  {
    if !Holds(t, uri, session) then t.subscribers
    else if t.subscribers[uri] == {session} then t.subscribers - {uri}
    else t.subscribers[uri := t.subscribers[uri] - {session}]
  }

  /** dropSubscriberLocked. */
  function Drop(t: Table, uri: string, session: string): Table
  {
    if !Holds(t, uri, session) then t
    else
      Table(Without(t, uri, session),
            if CountOf(t, session) <= 1 then t.counts - {session}
            else t.counts[session := CountOf(t, session) - 1])
  }

  predicate Refuses(t: Table, cap: int, uri: string, session: string)
  {
    !Holds(t, uri, session) && CountOf(t, session) >= cap
  }

  /** The first locked section of handleSubscribe. */
  function Add(t: Table, cap: int, uri: string, session: string): Table
  {
    if Refuses(t, cap, uri, session) || Holds(t, uri, session) then t
    else
      var set_ := if uri in t.subscribers then t.subscribers[uri] else {};
      Table(t.subscribers[uri := set_ + {session}], t.counts[session := CountOf(t, session) + 1])
  }

  /** A session the sweep leaves alone: still connected, or not identified by its transport. */
  predicate Spared(live: set<string>, session: string) { session == "" || session in live }

  function Survivors(live: set<string>, sessions: set<string>): set<string>
  {
    set s | s in sessions && Spared(live, s)
  }

  /** reapSubscribers: every session that is gone loses all it held. */
  function Reap(t: Table, live: set<string>): Table
  {
    Table(map uri | uri in t.subscribers && Survivors(live, t.subscribers[uri]) != {} ::
            Survivors(live, t.subscribers[uri]),
          map s | s in t.counts && Spared(live, s) :: t.counts[s])
  }

  datatype Op = Subscribe(uri: string, session: string)
              | SubscribeFailed(uri: string, session: string)
              | Unsubscribe(uri: string, session: string)
              | Sweep(live: set<string>)

  function Apply(t: Table, cap: int, op: Op): Table
  {
    match op
    case Subscribe(uri, session) => Add(t, cap, uri, session)
    case SubscribeFailed(uri, session) => Drop(t, uri, session)
    case Unsubscribe(uri, session) => Drop(t, uri, session)
    case Sweep(live) => Reap(t, live)
  }

  function Replay(cap: int, ops: seq<Op>): Table
  {
    if ops == [] then EMPTY else Apply(Replay(cap, ops[..|ops| - 1]), cap, ops[|ops| - 1])
  }

  lemma AddUris(t: Table, cap: int, uri: string, session: string, s: string)
    requires !Refuses(t, cap, uri, session) && !Holds(t, uri, session)
    ensures UrisOf(Add(t, cap, uri, session), s) ==
            if s == session then UrisOf(t, s) + {uri} else UrisOf(t, s)
  {
  }

  lemma AddCounts(t: Table, cap: int, uri: string, session: string, s: string)
    requires Consistent(t, cap) && !Refuses(t, cap, uri, session) && !Holds(t, uri, session)
    ensures CountOf(Add(t, cap, uri, session), s) == |UrisOf(Add(t, cap, uri, session), s)|
  {
    AddUris(t, cap, uri, session, s);
    assert CountOf(t, s) == |UrisOf(t, s)|;
    if s == session { OneMore(UrisOf(t, s), uri); }
  }

  lemma OneMore(uris: set<string>, uri: string)
    requires uri !in uris
    ensures |uris + {uri}| == |uris| + 1
  {
  }

  lemma AddKeepsConsistent(t: Table, cap: int, uri: string, session: string)
    requires Consistent(t, cap)
    ensures Consistent(Add(t, cap, uri, session), cap)
  {
    if !Refuses(t, cap, uri, session) && !Holds(t, uri, session) {
      var a := Add(t, cap, uri, session);
      forall s ensures CountOf(a, s) == |UrisOf(a, s)| {
        AddCounts(t, cap, uri, session, s);
      }
      assert CountOf(t, session) == |UrisOf(t, session)|;
      assert forall s :: s in a.counts ==> 0 < a.counts[s] <= cap;
      assert forall u :: u in a.subscribers ==> a.subscribers[u] != {};
    }
  }

  lemma DropUris(t: Table, uri: string, session: string, s: string)
    requires Holds(t, uri, session)
    ensures UrisOf(Drop(t, uri, session), s) ==
            if s == session then UrisOf(t, s) - {uri} else UrisOf(t, s)
  {
  }

  lemma DropKeepsConsistent(t: Table, cap: int, uri: string, session: string)
    requires Consistent(t, cap)
    ensures Consistent(Drop(t, uri, session), cap)
  {
    if Holds(t, uri, session) {
      var d := Drop(t, uri, session);
      assert uri in UrisOf(t, session);
      forall s ensures CountOf(d, s) == |UrisOf(d, s)| {
        DropUris(t, uri, session, s);
        assert CountOf(t, s) == |UrisOf(t, s)|;
      }
    }
  }

  lemma ReapUris(t: Table, live: set<string>, s: string)
    ensures UrisOf(Reap(t, live), s) == if Spared(live, s) then UrisOf(t, s) else {}
  {
    forall uri | uri in UrisOf(t, s) && Spared(live, s) ensures uri in UrisOf(Reap(t, live), s) {
      assert s in Survivors(live, t.subscribers[uri]);
    }
  }

  lemma ReapKeepsConsistent(t: Table, cap: int, live: set<string>)
    requires Consistent(t, cap)
    ensures Consistent(Reap(t, live), cap)
  {
    var r := Reap(t, live);
    forall s ensures CountOf(r, s) == |UrisOf(r, s)| {
      ReapUris(t, live, s);
      assert CountOf(t, s) == |UrisOf(t, s)|;
    }
  }

  /** Over every sequence of locked sections the two maps agree. */
  lemma {:induction false} RunKeepsConsistent(cap: int, ops: seq<Op>)
    ensures Consistent(Replay(cap, ops), cap)
  {
    if ops != [] {
      var t := Replay(cap, ops[..|ops| - 1]);
      RunKeepsConsistent(cap, ops[..|ops| - 1]);
      match ops[|ops| - 1]
      case Subscribe(uri, session) => AddKeepsConsistent(t, cap, uri, session);
      case SubscribeFailed(uri, session) => DropKeepsConsistent(t, cap, uri, session);
      case Unsubscribe(uri, session) => DropKeepsConsistent(t, cap, uri, session);
      case Sweep(live) => ReapKeepsConsistent(t, cap, live);
    }
  }

  /** No session ever holds more than cap URIs, whatever the sequence of sections. */
  lemma SessionNeverExceedsCap(cap: int, ops: seq<Op>, session: string)
    requires cap >= 0
    ensures |UrisOf(Replay(cap, ops), session)| <= cap
  {
    RunKeepsConsistent(cap, ops);
    assert CountOf(Replay(cap, ops), session) == |UrisOf(Replay(cap, ops), session)|;
  }

  /** Consistent counts are a function of who holds what. */
  lemma CountsFollowSubscribers(a: Table, b: Table, cap: int)
    requires Consistent(a, cap) && Consistent(b, cap) && a.subscribers == b.subscribers
    ensures a == b
  {
    forall s ensures s in a.counts <==> s in b.counts
             ensures s in a.counts ==> a.counts[s] == b.counts[s]
    {
      assert UrisOf(a, s) == UrisOf(b, s);
      assert CountOf(a, s) == |UrisOf(a, s)| && CountOf(b, s) == |UrisOf(b, s)|;
    }
    assert a.counts == b.counts;
  }

  lemma WithoutAdded(t: Table, cap: int, uri: string, session: string)
    requires !Holds(t, uri, session) && !Refuses(t, cap, uri, session)
    requires uri in t.subscribers ==> t.subscribers[uri] != {}
    ensures Without(Add(t, cap, uri, session), uri, session) == t.subscribers
  {
    var a := Add(t, cap, uri, session);
    if uri in t.subscribers {
      assert a.subscribers[uri] - {session} == t.subscribers[uri];
      assert a.subscribers[uri := t.subscribers[uri]] == t.subscribers;
    } else {
      assert a.subscribers - {uri} == t.subscribers;
    }
  }

  /** Unsubscribing right after a subscribe that was not refused restores the table. */
  lemma UnsubscribeUndoesSubscribe(t: Table, cap: int, uri: string, session: string)
    requires Consistent(t, cap) && !Holds(t, uri, session) && !Refuses(t, cap, uri, session)
    ensures Drop(Add(t, cap, uri, session), uri, session) == t
  {
    var a := Add(t, cap, uri, session);
    AddKeepsConsistent(t, cap, uri, session);
    DropKeepsConsistent(a, cap, uri, session);
    WithoutAdded(t, cap, uri, session);
    assert Holds(a, uri, session);
    CountsFollowSubscribers(Drop(a, uri, session), t, cap);
  }

  /** Who holds what after one more section: a subscribe adds its own pair unless its session
      already holds as many URIs as the cap; a failed one and an unsubscribe take theirs away; a
      sweep takes everything from every session that is identified and gone. */
  ghost predicate HoldsNext(before: Table, cap: int, op: Op, uri: string, session: string)
  {
    var held := Holds(before, uri, session);
    match op
    case Sweep(live) => held && (session == "" || session in live)
    case Subscribe(_, _) =>
      held || (op.uri == uri && op.session == session && |UrisOf(before, session)| < cap)
    case _ => held && !(op.uri == uri && op.session == session)
  }

  /** Over every run of sections, that is exactly who holds what. */
  lemma HoldsExactly(cap: int, ops: seq<Op>, op: Op, uri: string, session: string)
    ensures Holds(Replay(cap, ops + [op]), uri, session) <==> HoldsNext(Replay(cap, ops), cap, op, uri, session)
  {
    assert (ops + [op])[..|ops|] == ops;
    RunKeepsConsistent(cap, ops);
    ApplyHolds(Replay(cap, ops), cap, op, uri, session);
  }

  lemma ApplyHolds(t: Table, cap: int, op: Op, uri: string, session: string)
    requires Consistent(t, cap)
    ensures Holds(Apply(t, cap, op), uri, session) <==> HoldsNext(t, cap, op, uri, session)
  {
    match op
    case Subscribe(u, s) => AddHolds(t, cap, u, s, uri, session);
    case Sweep(live) => SweepHolds(t, live, uri, session);
    case _ =>
  }

  lemma AddHolds(t: Table, cap: int, u: string, s: string, uri: string, session: string)
    requires Consistent(t, cap)
    ensures Holds(Add(t, cap, u, s), uri, session) <==>
            Holds(t, uri, session) || (u == uri && s == session && |UrisOf(t, session)| < cap)
  {
    assert CountOf(t, session) == |UrisOf(t, session)|;
  }

  lemma SweepHolds(t: Table, live: set<string>, uri: string, session: string)
    ensures Holds(Reap(t, live), uri, session) <==> Holds(t, uri, session) && Spared(live, session)
  {
    if Holds(t, uri, session) && Spared(live, session) { assert session in Survivors(live, t.subscribers[uri]); }
  }

  /** subscribers with uri held by exactly these sessions. */
  ghost function Only(subscribers: map<string, set<string>>, uri: string, sessions: set<string>):
    map<string, set<string>>
  {
    if sessions == {} then subscribers - {uri} else subscribers[uri := sessions]
  }

  lemma OnlyWithout(subscribers: map<string, set<string>>, uri: string, sessions: set<string>, id: string,
                    counts: map<string, int>)
    requires id in sessions
    ensures Without(Table(Only(subscribers, uri, sessions), counts), uri, id) ==
            Only(subscribers, uri, sessions - {id})
  {
    assert sessions == {id} <==> sessions - {id} == {};
    assert subscribers[uri := sessions] - {uri} == subscribers - {uri};
    assert subscribers[uri := sessions][uri := sessions - {id}] == subscribers[uri := sessions - {id}];
  }

  datatype Outcome = LimitReached | AlreadyHeld | FirstSubscriber

  class Gateway {
    const cap: int
    var subscribers: map<string, set<string>>
    var subCount: map<string, int>

    ghost function State(): Table
      reads this
    {
      Table(subscribers, subCount)
    }

    ghost predicate Valid()
      reads this
    {
      Consistent(State(), cap)
    }

    constructor (cap: int)
      ensures Valid() && this.cap == cap && State() == EMPTY
    {
      this.cap, subscribers, subCount := cap, map[], map[];
    }

    /** handleSubscribe up to the upstream call, which only the first subscriber makes. */
    method SubscribeSection(uri: string, session: string) returns (outcome: Outcome)
      requires Valid()
      modifies this
      ensures Valid() && State() == Add(old(State()), cap, uri, session)
      ensures outcome == LimitReached <==> Refuses(old(State()), cap, uri, session)
      ensures outcome == FirstSubscriber <==>
              !Refuses(old(State()), cap, uri, session) && uri !in old(subscribers)
    {
      AddKeepsConsistent(State(), cap, uri, session);
      var sessions := if uri in subscribers then subscribers[uri] else {};
      var count := if session in subCount then subCount[session] else 0;
      if session !in sessions && count >= cap { return LimitReached; }
      var first := sessions == {};
      if session !in sessions {
        subscribers := subscribers[uri := sessions + {session}];
        subCount := subCount[session := count + 1];
      }
      return if first then FirstSubscriber else AlreadyHeld;
    }

    /** dropSubscriberLocked: reports whether the URI has no subscriber left. */
    method DropSubscriber(uri: string, session: string) returns (last: bool)
      requires Valid()
      modifies this
      ensures Valid() && State() == Drop(old(State()), uri, session)
      ensures last <==> uri !in subscribers
    {
      DropKeepsConsistent(State(), cap, uri, session);
      if uri !in subscribers || session !in subscribers[uri] {
        return uri !in subscribers;
      }
      var rest := subscribers[uri] - {session};
      if session !in subCount || subCount[session] <= 1 {
        subCount := subCount - {session};
      } else {
        subCount := subCount[session := subCount[session] - 1];
      }
      if rest == {} {
        assert subscribers[uri] == {session};
        subscribers := subscribers - {uri};
        return true;
      }
      subscribers := subscribers[uri := rest];
      return false;
    }

    /** handleUnsubscribe: release says whether the upstream subscription is to be dropped. */
    method UnsubscribeSection(uri: string, session: string) returns (release: bool)
      requires Valid()
      modifies this
      ensures Valid() && State() == Drop(old(State()), uri, session)
      ensures release <==> old(Holds(State(), uri, session)) && uri !in subscribers
    {
      if uri !in subscribers || session !in subscribers[uri] { return false; }
      release := DropSubscriber(uri, session);
    }

    /** The sessions of one URI; orphaned when none of them is spared. */
    method ReapUri(uri: string, live: set<string>) returns (orphaned: bool)
      requires Valid() && uri in subscribers
      modifies this
      ensures Valid()
      ensures orphaned <==> Survivors(live, old(subscribers)[uri]) == {}
      ensures subscribers == Only(old(subscribers), uri, Survivors(live, old(subscribers)[uri]))
    {
      ghost var left := subscribers[uri];
      var ids := subscribers[uri];
      orphaned := false;
      assert subscribers == Only(subscribers, uri, left);
      while ids != {}
        invariant Valid()
        invariant ids <= left <= old(subscribers)[uri]
        invariant forall s :: s in old(subscribers)[uri] && s !in ids ==> (s in left <==> Spared(live, s))
        invariant orphaned <==> left == {}
        invariant subscribers == Only(old(subscribers), uri, left)
        decreases ids
      {
        var id :| id in ids;
        if id != "" && id !in live {
          OnlyWithout(old(subscribers), uri, left, id, subCount);
          left := left - {id};
          orphaned := DropSubscriber(uri, id);
        }
        ids := ids - {id};
      }
      assert left == Survivors(live, old(subscribers)[uri]);
    }

    /** reapSubscribers, returning the URIs nobody holds any more, each once. */
    method ReapSubscribers(live: set<string>) returns (orphaned: seq<string>)
      requires Valid()
      modifies this
      ensures Valid() && State() == Reap(old(State()), live)
      ensures forall uri :: uri in orphaned <==> uri in old(subscribers) && uri !in subscribers
      ensures forall i, j :: 0 <= i < j < |orphaned| ==> orphaned[i] != orphaned[j]
    {
      ReapKeepsConsistent(State(), cap, live);
      ghost var before := State();
      var todo := subscribers.Keys;
      orphaned := [];
      while todo != {}
        invariant Valid() && Sweeping(before, live, todo, subscribers)
        invariant Orphans(before, live, todo, orphaned)
        decreases todo
      {
        var uri :| uri in todo;
        SweepOne(before, live, todo, uri, subscribers);
        var gone := ReapUri(uri, live);
        OrphanOne(before, live, todo, uri, orphaned);
        todo := todo - {uri};
        if gone { orphaned := orphaned + [uri]; }
      }
      assert subscribers == Reap(before, live).subscribers;
      CountsFollowSubscribers(State(), Reap(before, live), cap);
    }
  }

  /** The sweep has dealt with every URI but those still to do. */
  ghost predicate Sweeping(before: Table, live: set<string>, todo: set<string>, subscribers: map<string, set<string>>)
  {
    var target := Reap(before, live).subscribers;
    && todo <= before.subscribers.Keys
    && (forall uri :: uri in todo ==> uri in subscribers && subscribers[uri] == before.subscribers[uri])
    && (forall uri :: uri !in todo ==> (uri in subscribers <==> uri in target))
    && (forall uri :: uri !in todo && uri in subscribers ==> subscribers[uri] == target[uri])
  }

  ghost predicate Orphans(before: Table, live: set<string>, todo: set<string>, orphaned: seq<string>)
  {
    && (forall uri :: uri in orphaned <==>
          uri in before.subscribers && uri !in Reap(before, live).subscribers && uri !in todo)
    && forall i, j :: 0 <= i < j < |orphaned| ==> orphaned[i] != orphaned[j]
  }

  lemma SweepOne(before: Table, live: set<string>, todo: set<string>, uri: string,
                 subscribers: map<string, set<string>>)
    requires Sweeping(before, live, todo, subscribers) && uri in todo
    ensures Sweeping(before, live, todo - {uri}, Only(subscribers, uri, Survivors(live, subscribers[uri])))
  {
  }

  lemma OrphanOne(before: Table, live: set<string>, todo: set<string>, uri: string, orphaned: seq<string>)
    requires Orphans(before, live, todo, orphaned) && uri in todo && uri in before.subscribers
    ensures var gone := Survivors(live, before.subscribers[uri]) == {};
            Orphans(before, live, todo - {uri}, if gone then orphaned + [uri] else orphaned)
  {
  }
}
