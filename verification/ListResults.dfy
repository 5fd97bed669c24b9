/**
 What a GetOrFill returns, over every run of the list cache: its own fill, or bytes that some
 call filled for the same key, and nothing only when its own fill failed.
 */
module ListResults {
  import opened Wrappers
  import opened CacheKeys
  import opened ListCache

  /** The system before step r. */
  function StateAt(actions: seq<Action>, r: nat): State
    requires r <= |actions|
  {
    var s := Run(actions[..r]);
    if s.Some? then s.value else INITIAL
  }

  lemma StateStep(actions: seq<Action>, n: nat)
    requires Run(actions).Some? && n < |actions|
    ensures Enabled(StateAt(actions, n), actions[n])
    ensures StateAt(actions, n + 1) == Act(StateAt(actions, n), n, actions[n])
  {
    RunPrefix(actions, n + 1);
    assert actions[..n + 1][..n] == actions[..n];
  }

  lemma StateAtEnd(actions: seq<Action>)
    requires Run(actions).Some?
    ensures StateAt(actions, |actions|) == Run(actions).value
  {
    assert actions[..|actions|] == actions;
  }

  // ---- a successful fill is returned ----

  /** The call has these bytes, to be stored or to be returned. */
  predicate Has(s: State, c: nat, bytes: string)
  {
    c in s.calls &&
    var p := s.calls[c].phase;
    (p.Filled? && p.blob.bytes == bytes) || (p.Done? && p.result.Some? && p.result.value.bytes == bytes)
  }

  lemma HasStays(s: State, n: nat, a: Action, c: nat, bytes: string)
    requires Enabled(s, a) && Has(s, c, bytes) && !(a.Start? && a.caller == c)
    ensures Has(Act(s, n, a), c, bytes)
  {
  }

  lemma EndFillHas(s: State, n: nat, c: nat, bytes: string)
    requires Enabled(s, EndFill(c, Some(bytes)))
    ensures Has(Act(s, n, EndFill(c, Some(bytes))), c, bytes)
  {
  }

  lemma {:induction false} FilledHas(actions: seq<Action>, i: nat, c: nat, bytes: string, n: nat)
    requires Run(actions).Some? && i < n <= |actions| && actions[i] == EndFill(c, Some(bytes))
    requires forall j :: i < j < n ==> !(actions[j].Start? && actions[j].caller == c)
    ensures Has(StateAt(actions, n), c, bytes)
  {
    StateStep(actions, n - 1);
    if n == i + 1 {
      EndFillHas(StateAt(actions, i), i, c, bytes);
    } else {
      FilledHas(actions, i, c, bytes, n - 1);
      HasStays(StateAt(actions, n - 1), n - 1, actions[n - 1], c, bytes);
    }
  }

  /** Over every run: a call whose fill succeeded returns what was filled, whether or not it
      could be stored. */
  lemma FillIsReturned(actions: seq<Action>, i: nat, c: nat, bytes: string)
    requires Run(actions).Some? && i < |actions| && actions[i] == EndFill(c, Some(bytes))
    requires forall j :: i < j < |actions| ==> !(actions[j].Start? && actions[j].caller == c)
    ensures c in Run(actions).value.calls
    ensures var p := Run(actions).value.calls[c].phase;
            p.Done? ==> p.result.Some? && p.result.value.bytes == bytes
  {
    FilledHas(actions, i, c, bytes, |actions|);
    StateAtEnd(actions);
  }

  // ---- where results come from ----

  /** Some call filled these bytes for the key, beginning at the blob's origin. */
  ghost predicate FilledFor(actions: seq<Action>, key: string, blob: Blob)
  {
    exists j: nat :: EndsFill(actions, key, blob, j)
  }

  ghost predicate EndsFill(actions: seq<Action>, key: string, blob: Blob, j: nat)
  {
    && blob.origin < j < |actions| && actions[j].EndFill? && actions[j].bytes == Some(blob.bytes)
    && actions[blob.origin] == BeginFill(actions[j].caller)
    && actions[j].caller in StateAt(actions, j).calls && StateAt(actions, j).calls[actions[j].caller].key == key
  }

  ghost predicate FillFailed(actions: seq<Action>, c: nat, started: nat)
  {
    exists i: nat :: started < i < |actions| && actions[i] == EndFill(c, None)
  }

  ghost predicate ResultInv(actions: seq<Action>, c: nat, call: Call)
  {
    call.started < |actions| &&
    match call.phase
    case Filling(_, since) => call.started < since < |actions| && actions[since] == BeginFill(c)
    case Filled(_, blob) => FilledFor(actions, call.key, blob)
    case Done(result) =>
      if result.Some? then FilledFor(actions, call.key, result.value) else FillFailed(actions, c, call.started)
    case _ => true
  }

  ghost predicate BytesInv(actions: seq<Action>, s: State)
  {
    && (forall c :: c in s.calls ==> ResultInv(actions, c, s.calls[c]))
    && (forall at :: at in s.data ==> FilledFor(actions, at.1, s.data[at]))
  }

  lemma FilledForStays(actions: seq<Action>, longer: seq<Action>, key: string, blob: Blob)
    requires Extends(longer, actions) && FilledFor(actions, key, blob)
    ensures FilledFor(longer, key, blob)
  {
    var j: nat :| EndsFill(actions, key, blob, j);
    assert longer[..j] == longer[..|actions|][..j];
    assert longer[j] == longer[..|actions|][j] && longer[blob.origin] == longer[..|actions|][blob.origin];
    assert EndsFill(longer, key, blob, j);
  }

  lemma FillFailedStays(actions: seq<Action>, longer: seq<Action>, c: nat, started: nat)
    requires Extends(longer, actions) && FillFailed(actions, c, started)
    ensures FillFailed(longer, c, started)
  {
    var i: nat :| started < i < |actions| && actions[i] == EndFill(c, None);
    assert longer[i] == longer[..|actions|][i];
  }

  lemma ResultStays(actions: seq<Action>, longer: seq<Action>, c: nat, call: Call)
    requires Extends(longer, actions) && ResultInv(actions, c, call)
    ensures ResultInv(longer, c, call)
  {
    match call.phase
    case Filling(_, since) => assert longer[since] == longer[..|actions|][since];
    case Filled(_, blob) => FilledForStays(actions, longer, call.key, blob);
    case Done(result) =>
      if result.Some? {
        FilledForStays(actions, longer, call.key, result.value);
      } else {
        FillFailedStays(actions, longer, c, call.started);
      }
    case _ =>
  }

  lemma FillEnds(actions: seq<Action>, longer: seq<Action>, s: State, c: nat, bytes: Option<string>)
    requires Extends(longer, actions) && Run(actions) == Some(s) && BytesInv(actions, s)
    requires longer[|actions|] == EndFill(c, bytes) && Enabled(s, EndFill(c, bytes))
    ensures bytes.Some? ==> FilledFor(longer, s.calls[c].key, Blob(bytes.value, s.calls[c].phase.since))
    ensures bytes.None? ==> FillFailed(longer, c, s.calls[c].started)
  {
    var call := s.calls[c];
    ResultStays(actions, longer, c, call);
    if bytes.Some? {
      assert EndsFill(longer, call.key, Blob(bytes.value, call.phase.since), |actions|);
    }
  }

  lemma MovedResult(actions: seq<Action>, longer: seq<Action>, s: State, c: nat)
    requires Extends(longer, actions) && Run(actions) == Some(s) && BytesInv(actions, s)
    requires Enabled(s, longer[|actions|]) && Mover(longer[|actions|]) == Some(c)
    ensures ResultInv(longer, c, MovedTo(s, |actions|, longer[|actions|]))
  {
    var a := longer[|actions|];
    if !a.Start? { ResultStays(actions, longer, c, s.calls[c]); }
    match a
    case ReadData(_, _) =>
      var at := (s.calls[c].phase.gen, s.calls[c].key);
      if at in s.data { FilledForStays(actions, longer, at.1, s.data[at]); }
    case EndFill(_, bytes) => FillEnds(actions, longer, s, c, bytes);
    case _ =>
  }

  lemma StoredFilled(actions: seq<Action>, longer: seq<Action>, s: State, at: (nat, string))
    requires Extends(longer, actions) && BytesInv(actions, s) && Enabled(s, longer[|actions|])
    requires at in Act(s, |actions|, longer[|actions|]).data
    ensures FilledFor(longer, at.1, Act(s, |actions|, longer[|actions|]).data[at])
  {
    var a := longer[|actions|];
    var blob := Act(s, |actions|, a).data[at];
    StoredFrom(s, |actions|, a, at);
    if !(at in s.data && blob == s.data[at]) { assert ResultInv(actions, a.caller, s.calls[a.caller]); }
    FilledForStays(actions, longer, at.1, blob);
  }

  /** An entry was there before, or a call that had filled it stores it now. */
  lemma StoredFrom(s: State, n: nat, a: Action, at: (nat, string))
    requires Enabled(s, a) && at in Act(s, n, a).data
    ensures (at in s.data && Act(s, n, a).data[at] == s.data[at]) ||
            (a.StoreData? && at == (s.calls[a.caller].phase.gen, s.calls[a.caller].key)
             && Act(s, n, a).data[at] == s.calls[a.caller].phase.blob)
  {
  }

  lemma StepKeepsBytes(actions: seq<Action>, longer: seq<Action>, s: State)
    requires Extends(longer, actions) && Run(actions) == Some(s) && BytesInv(actions, s)
    requires Enabled(s, longer[|actions|])
    ensures BytesInv(longer, Act(s, |actions|, longer[|actions|]))
  {
    var a := longer[|actions|];
    var s' := Act(s, |actions|, a);
    forall at | at in s'.data ensures FilledFor(longer, at.1, s'.data[at]) { StoredFilled(actions, longer, s, at); }
    forall c | c in s'.calls ensures ResultInv(longer, c, s'.calls[c]) {
      if Mover(a) == Some(c) {
        MovedResult(actions, longer, s, c);
      } else {
        OthersStay(s, |actions|, a, c);
        ResultStays(actions, longer, c, s.calls[c]);
      }
    }
  }

  lemma {:induction false} RunKeepsBytes(actions: seq<Action>)
    requires Run(actions).Some?
    ensures BytesInv(actions, Run(actions).value)
  {
    if actions != [] {
      var n := |actions| - 1;
      RunKeepsBytes(actions[..n]);
      StepKeepsBytes(actions[..n], actions, Run(actions[..n]).value);
    }
  }

  /** Over every run: what a call returns are bytes that some call filled for the same key, and
      it returns nothing only after its own fill has failed. */
  lemma ResultIsAccountedFor(actions: seq<Action>, c: nat)
    requires Run(actions).Some? && c in Run(actions).value.calls && Run(actions).value.calls[c].phase.Done?
    ensures var call := Run(actions).value.calls[c];
            if call.phase.result.Some? then FilledFor(actions, call.key, call.phase.result.value)
            else FillFailed(actions, c, call.started)
  {
    RunKeepsBytes(actions);
    assert ResultInv(actions, c, Run(actions).value.calls[c]);
  }

  // ---- what is stored ----

  /** Step i stores the blob under this generation and key. */
  ghost predicate StoresAt(actions: seq<Action>, at: (nat, string), blob: Blob, i: nat)
  {
    && i < |actions| && actions[i].StoreData? && actions[i].ok && actions[i].caller in StateAt(actions, i).calls
    && var call := StateAt(actions, i).calls[actions[i].caller];
       call.key == at.1 && call.phase == Filled(at.0, blob)
  }

  /** Step i stores it, and up to step n nothing was stored there again and it did not expire. */
  ghost predicate Stands(actions: seq<Action>, at: (nat, string), blob: Blob, i: nat, n: nat)
  {
    && i < n && StoresAt(actions, at, blob, i)
    && forall j :: i < j < n && j < |actions| ==> !Touches(actions, at, j)
  }

  ghost predicate Touches(actions: seq<Action>, at: (nat, string), j: nat)
  {
    j < |actions| && (actions[j] == Expire(at.0, at.1) || exists blob :: StoresAt(actions, at, blob, j))
  }

  ghost predicate Standing(actions: seq<Action>, at: (nat, string), blob: Blob, n: nat)
  {
    exists i: nat :: Stands(actions, at, blob, i, n)
  }

  predicate Holds(s: State, at: (nat, string), blob: Blob) { at in s.data && s.data[at] == blob }

  lemma UntouchedData(actions: seq<Action>, at: (nat, string), blob: Blob, n: nat)
    requires Run(actions).Some? && n < |actions| && !Touches(actions, at, n)
    ensures Holds(StateAt(actions, n + 1), at, blob) <==> Holds(StateAt(actions, n), at, blob)
  {
    StateStep(actions, n);
    var s, a := StateAt(actions, n), actions[n];
    if a.StoreData? && a.ok {
      var call := s.calls[a.caller];
      if (call.phase.gen, call.key) == at { assert StoresAt(actions, at, call.phase.blob, n); }
    }
  }

  lemma UntouchedStands(actions: seq<Action>, at: (nat, string), blob: Blob, n: nat)
    requires n < |actions| && !Touches(actions, at, n)
    ensures Standing(actions, at, blob, n + 1) <==> Standing(actions, at, blob, n)
  {
    if Standing(actions, at, blob, n) {
      var i: nat :| Stands(actions, at, blob, i, n);
      assert Stands(actions, at, blob, i, n + 1);
    }
    if Standing(actions, at, blob, n + 1) {
      var i: nat :| Stands(actions, at, blob, i, n + 1);
      assert i != n;
      assert Stands(actions, at, blob, i, n);
    }
  }

  lemma TouchedEntry(actions: seq<Action>, at: (nat, string), blob: Blob, n: nat)
    requires Run(actions).Some? && n < |actions| && Touches(actions, at, n)
    ensures Holds(StateAt(actions, n + 1), at, blob) <==> Standing(actions, at, blob, n + 1)
  {
    StateStep(actions, n);
    if StoresAt(actions, at, blob, n) { assert Stands(actions, at, blob, n, n + 1); }
    if Standing(actions, at, blob, n + 1) {
      var i: nat :| Stands(actions, at, blob, i, n + 1);
      assert i == n;
    }
  }

  /** Over every run: an entry is there exactly when a call that had filled it for this key under
      this generation stored it and it has not expired since, and it is the last one stored. */
  lemma {:induction false} EntryIsLastStored(actions: seq<Action>, at: (nat, string), blob: Blob, n: nat)
    requires Run(actions).Some? && n <= |actions|
    ensures Holds(StateAt(actions, n), at, blob) <==> Standing(actions, at, blob, n)
  {
    if n > 0 {
      EntryIsLastStored(actions, at, blob, n - 1);
      if Touches(actions, at, n - 1) {
        TouchedEntry(actions, at, blob, n - 1);
      } else {
        UntouchedData(actions, at, blob, n - 1);
        UntouchedStands(actions, at, blob, n - 1);
      }
    }
  }

  // ---- one call in the source's form ----

  /** The call is over and returned this. */
  predicate Returned(s: State, c: nat, result: Option<string>)
  {
    && c in s.calls && s.calls[c].phase.Done?
    && var r := s.calls[c].phase.result;
       if result.None? then r.None? else r.Some? && r.value.bytes == result.value
  }

  /** The call fills. */
  lemma FillSteps(actions: seq<Action>, s: State, c: nat, bytes: Option<string>)
    returns (longer: seq<Action>, s': State)
    requires Run(actions) == Some(s) && c in s.calls && s.calls[c].phase.NeedFill?
    ensures Run(longer) == Some(s') && actions <= longer && s'.gens == s.gens && s'.data == s.data
    ensures c in s'.calls && s'.calls[c].key == s.calls[c].key
    ensures bytes.None? || s.calls[c].phase.use.None? ==> Returned(s', c, bytes)
    ensures bytes.Some? && s.calls[c].phase.use.Some? ==>
              s'.calls[c].phase == Filled(s.calls[c].phase.use.value, Blob(bytes.value, |actions|))
  {
    longer, s' := Extended(actions, s, BeginFill(c));
    longer, s' := Extended(longer, s', EndFill(c, bytes));
  }

  /** Started past the cache, it fills at once. */
  lemma BypassSteps(actions: seq<Action>, s: State, c: nat, key: string, bytes: Option<string>)
    returns (longer: seq<Action>, s': State)
    requires Run(actions) == Some(s) && c !in s.calls
    ensures Run(longer) == Some(s') && actions <= longer && s'.gens == s.gens && s'.data == s.data
    ensures Returned(s', c, bytes)
  {
    longer, s' := Extended(actions, s, Start(c, key, false));
    longer, s' := FillSteps(longer, s', c, bytes);
  }

  /** It looks, and does not fill. */
  lemma LookSteps(actions: seq<Action>, s: State, c: nat, key: string, genOk: bool, dataOk: bool)
    returns (longer: seq<Action>, s': State)
    requires Run(actions) == Some(s) && c !in s.calls
    ensures Run(longer) == Some(s') && actions <= longer && s'.gens == s.gens && s'.data == s.data
    ensures c in s'.calls && s'.calls[c].key == key
    ensures var at := (Gen(s, Family(key)), key);
            s'.calls[c].phase == if !genOk then NeedFill(None)
                                 else if dataOk && at in s.data then Done(Some(s.data[at])) else NeedFill(Some(at.0))
  {
    longer, s' := Extended(actions, s, Start(c, key, true));
    longer, s' := Extended(longer, s', ReadGen(c, genOk));
    if genOk { longer, s' := Extended(longer, s', ReadData(c, dataOk)); }
  }

  /** The cache as one gateway uses it: the keys in Redis, and the two operations, each command
      of which may fail. The ghost arguments are a run of the step system that led to these keys;
      what is returned extends it by the steps of this one call. */
  class RedisCache {
    var gens: map<string, nat>
    var data: map<(nat, string), string>

    ghost predicate Shows(s: State)
      reads this
    {
      && gens == s.gens && data.Keys == s.data.Keys
      && forall at :: at in data ==> data[at] == s.data[at].bytes
    }

    /** GetOrFill with nobody else in between: the stored bytes on a hit, otherwise what fill
        returns, stored if it can be. Alone it is a run of the step system. */
    method GetOrFill(key: string, ttl: int, genOk: bool, dataOk: bool, fill: Option<string>, setOk: bool,
                     ghost c: nat, ghost before: seq<Action>)
      returns (result: Option<string>, ghost after: seq<Action>)
      requires Run(before).Some? && Shows(Run(before).value) && c !in Run(before).value.calls
      modifies this`data
      ensures Run(after).Some? && Shows(Run(after).value) && before <= after
      ensures Returned(Run(after).value, c, result)
      ensures var g := if Family(key) in gens then gens[Family(key)] else 0;
              var through := ttl > 0 && genOk;
              if through && dataOk && (g, key) in old(data)
              then result == Some(old(data)[(g, key)]) && data == old(data)
              else result == fill &&
                   data == if through && setOk && fill.Some? then old(data)[(g, key) := fill.value] else old(data)
    {
      ghost var s := Run(before).value;
      if ttl <= 0 {
        after, s := BypassSteps(before, s, c, key, fill);
        return fill, after;
      }
      after, s := LookSteps(before, s, c, key, genOk, dataOk);
      var family := ComputeFamily(key);
      if !genOk {
        after, s := FillSteps(after, s, c, fill);
        return fill, after;
      }
      var gen := if family in gens then gens[family] else 0;
      if dataOk && (gen, key) in data {
        return Some(data[(gen, key)]), after;
      }
      after, s := FillSteps(after, s, c, fill);
      if fill.None? {
        return None, after;
      }
      after, s := Extended(after, s, StoreData(c, setOk));
      if setOk { data := data[(gen, key) := fill.value]; }
      return fill, after;
    }

    /** Invalidate is an INCR of the family's generation key, which reads as 0 when missing. */
    method Invalidate(prefix: string, ok: bool, ghost before: seq<Action>) returns (ghost after: seq<Action>)
      requires Run(before).Some? && Shows(Run(before).value)
      modifies this`gens
      ensures Run(after).Some? && Shows(Run(after).value) && before <= after
      ensures var f := Family(prefix);
              gens == if ok then old(gens)[f := (if f in old(gens) then old(gens)[f] else 0) + 1] else old(gens)
    {
      ghost var s := Run(before).value;
      after, s := Extended(before, s, ListCache.Invalidate(prefix, ok));
      var family := ComputeFamily(prefix);
      if ok { gens := gens[family := (if family in gens then gens[family] else 0) + 1]; }
    }
  }
}
