/**
 When argument constraints can be met at all, and with them when a tool that is listed can be
 called with some arguments.
 */
module PolicyArgs {
  import opened Wrappers
  import opened Subjects
  import opened Policy
  import opened PolicyLaws
  import Glob

  /** The value with x put at a path, and objects made on the way there. */
  function Insert(v: Json, path: seq<string>, x: Json): (r: Json)
    ensures path != [] ==> r.Obj?
    decreases |path|
  {
    if path == [] then x
    else
      var fields := if v.Obj? then v.fields else map[];
      var old_ := if path[0] in fields then fields[path[0]] else Null;
      Obj(fields[path[0] := Insert(old_, path[1..], x)])
  }

  lemma {:induction false} InsertFound(v: Json, path: seq<string>, x: Json)
    ensures Lookup(Insert(v, path, x), path) == Some(x)
    decreases |path|
  {
    if path != [] {
      var fields := if v.Obj? then v.fields else map[];
      InsertFound(if path[0] in fields then fields[path[0]] else Null, path[1..], x);
    }
  }

  lemma {:induction false} InsertSame(v: Json, path: seq<string>, x: Json)
    requires Lookup(v, path) == Some(x)
    ensures Insert(v, path, x) == v
    decreases |path|
  {
    if path != [] {
      InsertSame(v.fields[path[0]], path[1..], x);
      assert v.fields[path[0] := v.fields[path[0]]] == v.fields;
    }
  }

  lemma {:induction false} InsertApart(v: Json, p: seq<string>, x: Json, q: seq<string>)
    requires !(p <= q) && !(q <= p) && Lookup(v, q).Some?
    ensures Lookup(Insert(v, p, x), q) == Lookup(v, q)
    decreases |p|
  {
    assert p == [p[0]] + p[1..] && q == [q[0]] + q[1..];
    if p[0] == q[0] { InsertApart(v.fields[p[0]], p[1..], x, q[1..]); }
  }

  lemma {:induction false} LookupConcat(v: Json, p: seq<string>, q: seq<string>)
    ensures Lookup(v, p + q) == if Lookup(v, p).Some? then Lookup(Lookup(v, p).value, q) else None
    decreases |p|
  {
    if p == [] {
      assert p + q == q;
    } else {
      assert (p + q)[0] == p[0] && (p + q)[1..] == p[1..] + q;
      if v.Obj? && p[0] in v.fields { LookupConcat(v.fields[p[0]], p[1..], q); }
    }
  }

  /** x at p and y at q can stand together: where one path continues the other, the value at the
      shorter one holds the other's value. */
  predicate Agree(p: seq<string>, x: Json, q: seq<string>, y: Json)
  {
    p <= q ==> Lookup(x, q[|p|..]) == Some(y)
  }

  lemma InsertKeeps(v: Json, p: seq<string>, x: Json, q: seq<string>, y: Json)
    requires Lookup(v, q) == Some(y) && Agree(p, x, q, y) && Agree(q, y, p, x)
    ensures Lookup(Insert(v, p, x), q) == Some(y)
  {
    if p <= q {
      assert p + q[|p|..] == q;
      InsertFound(v, p, x);
      LookupConcat(Insert(v, p, x), p, q[|p|..]);
    } else if q <= p {
      assert q + p[|q|..] == p;
      LookupConcat(v, q, p[|q|..]);
      InsertSame(v, p, x);
    } else {
      InsertApart(v, p, x, q);
    }
  }

  function Segments(a: Arg): (path: seq<string>)
    ensures path != []
  {
    Glob.Split(a.path, '.')
  }

  predicate Compatible(constraints: seq<Arg>)
  {
    forall i, j :: 0 <= i < |constraints| && 0 <= j < |constraints| ==>
      Agree(Segments(constraints[i]), constraints[i].value, Segments(constraints[j]), constraints[j].value)
  }

  /** Arguments that meet the first n constraints, if any do. */
  function Build(constraints: seq<Arg>, n: nat): (r: Json)
    requires n <= |constraints|
    ensures r.Obj?
  {
    if n == 0 then Obj(map[])
    else Insert(Build(constraints, n - 1), Segments(constraints[n - 1]), constraints[n - 1].value)
  }

  lemma {:induction false} BuildHolds(constraints: seq<Arg>, n: nat, i: nat)
    requires Compatible(constraints) && i < n <= |constraints|
    ensures Lookup(Build(constraints, n), Segments(constraints[i])) == Some(constraints[i].value)
  {
    var v, a := Build(constraints, n - 1), constraints[n - 1];
    if i == n - 1 {
      InsertFound(v, Segments(a), a.value);
    } else {
      BuildHolds(constraints, n - 1, i);
      InsertKeeps(v, Segments(a), a.value, Segments(constraints[i]), constraints[i].value);
    }
  }

  lemma HoldingAgree(v: Json, p: seq<string>, x: Json, q: seq<string>, y: Json)
    requires Lookup(v, p) == Some(x) && Lookup(v, q) == Some(y)
    ensures Agree(p, x, q, y)
  {
    if p <= q {
      assert p + q[|p|..] == q;
      LookupConcat(v, p, q[|p|..]);
    }
  }

  ghost predicate CanHold(constraints: seq<Arg>) { exists args: map<string, Json> :: ArgsHold(constraints, Some(args)) }

  /** Constraints can be met exactly when each two of them can stand together. */
  lemma SatisfiableExactly(constraints: seq<Arg>)
    ensures CanHold(constraints) <==> Compatible(constraints)
  {
    if CanHold(constraints) {
      var args: map<string, Json> :| ArgsHold(constraints, Some(args));
      HeldAreCompatible(constraints, args);
    }
    if Compatible(constraints) {
      var built := Build(constraints, |constraints|);
      forall i | 0 <= i < |constraints| ensures ArgHolds(constraints[i], Some(built.fields)) {
        BuildHolds(constraints, |constraints|, i);
      }
      assert ArgsHold(constraints, Some(built.fields));
    }
  }

  lemma HeldAreCompatible(constraints: seq<Arg>, args: map<string, Json>)
    requires ArgsHold(constraints, Some(args))
    ensures Compatible(constraints)
  {
    forall i, j | 0 <= i < |constraints| && 0 <= j < |constraints|
      ensures Agree(Segments(constraints[i]), constraints[i].value, Segments(constraints[j]), constraints[j].value)
    {
      assert ArgHolds(constraints[i], Some(args)) && ArgHolds(constraints[j], Some(args));
      HoldingAgree(Obj(args), Segments(constraints[i]), constraints[i].value, Segments(constraints[j]),
                   constraints[j].value);
    }
  }

  // ---- listed and callable ----

  ghost predicate Callable(e: Engine, who: Option<Principal>, call: Call, tool: Option<ToolAnnotations>)
  {
    exists args :: Outcome(e, CallQuery(who, call, Evidence(args, tool))).allowed
  }

  /** No deny that could stand against the call depends on its arguments. */
  ghost predicate DeniesIgnoreArgs(rules: seq<Rule>, q: Query)
  {
    forall r, i :: r in rules && Covers(r.subjects, q.who) && 0 <= i < |r.deny| && FitsButArgs(r.deny[i], q) ==>
      r.deny[i].args == []
  }

  /** A clause grants the call to the caller for some arguments. */
  ghost predicate Grantable(r: Rule, q: Query)
  {
    Covers(r.subjects, q.who) &&
    exists i :: 0 <= i < |r.allow| && FitsButArgs(r.allow[i], q) && Compatible(r.allow[i].args)
  }

  lemma CallDenyIsListDeny(r: Rule, rules: seq<Rule>, who: Option<Principal>, call: Call, ev: Evidence)
    requires r in rules && DeniesIgnoreArgs(rules, ListQuery(who, call, ev.tool))
    requires DenyHits(r, CallQuery(who, call, ev))
    ensures DenyHits(r, ListQuery(who, call, ev.tool))
  {
    var i :| 0 <= i < |r.deny| && Applies(r.deny[i], CallQuery(who, call, ev), Enforce);
    assert FitsButArgs(r.deny[i], ListQuery(who, call, ev.tool));
    assert Applies(r.deny[i], ListQuery(who, call, ev.tool), Skip);
  }

  lemma CallAllowIsGrantable(r: Rule, who: Option<Principal>, call: Call, ev: Evidence)
    requires AllowHits(r, CallQuery(who, call, ev))
    ensures Grantable(r, ListQuery(who, call, ev.tool))
  {
    var i :| 0 <= i < |r.allow| && Applies(r.allow[i], CallQuery(who, call, ev), Enforce);
    var c := r.allow[i];
    if c.args != [] {
      assert ArgHolds(c.args[0], ev.args);
      HeldAreCompatible(c.args, ev.args.value);
    }
    assert FitsButArgs(c, ListQuery(who, call, ev.tool)) && Compatible(c.args);
  }

  lemma GrantableIsAllowed(r: Rule, who: Option<Principal>, call: Call, tool: Option<ToolAnnotations>)
    returns (args: map<string, Json>)
    requires Grantable(r, ListQuery(who, call, tool))
    ensures AllowHits(r, CallQuery(who, call, Evidence(Some(args), tool)))
  {
    var q := ListQuery(who, call, tool);
    var i :| 0 <= i < |r.allow| && FitsButArgs(r.allow[i], q) && Compatible(r.allow[i].args);
    SatisfiableExactly(r.allow[i].args);
    args :| ArgsHold(r.allow[i].args, Some(args));
    assert Applies(r.allow[i], CallQuery(who, call, Evidence(Some(args), tool)), Enforce);
  }

  lemma ListedIsNotDenied(e: Engine, who: Option<Principal>, call: Call, ev: Evidence)
    requires DeniesIgnoreArgs(e.rules, ListQuery(who, call, ev.tool)) && e.enabled
    requires Outcome(e, ListQuery(who, call, ev.tool)).allowed
    ensures !SomeDeny(e.rules, CallQuery(who, call, ev))
  {
    VerdictIs(e, ListQuery(who, call, ev.tool));
    forall r | r in e.rules ensures !DenyHits(r, CallQuery(who, call, ev)) {
      if DenyHits(r, CallQuery(who, call, ev)) { CallDenyIsListDeny(r, e.rules, who, call, ev); }
    }
  }

  ghost predicate SomeGrantable(rules: seq<Rule>, q: Query) { exists r :: r in rules && Grantable(r, q) }

  /** Where no deny that could stand against it depends on arguments, a tool can be called with
      some arguments exactly when it is listed and, unless everything is allowed by default, a
      clause that fits the caller and the tool has constraints that can be met together. */
  lemma CallableExactly(e: Engine, who: Option<Principal>, call: Call, tool: Option<ToolAnnotations>)
    requires DeniesIgnoreArgs(e.rules, ListQuery(who, call, tool))
    ensures var q := ListQuery(who, call, tool);
            Callable(e, who, call, tool) <==>
            Outcome(e, q).allowed && (!e.enabled || e.defaultAllow || SomeGrantable(e.rules, q))
  {
    var q := ListQuery(who, call, tool);
    if Callable(e, who, call, tool) { CallableIsGrantable(e, who, call, tool); }
    if Outcome(e, q).allowed && (!e.enabled || e.defaultAllow || SomeGrantable(e.rules, q)) {
      ListedIsCallable(e, who, call, tool);
    }
  }

  lemma CallableIsGrantable(e: Engine, who: Option<Principal>, call: Call, tool: Option<ToolAnnotations>)
    requires Callable(e, who, call, tool)
    ensures var q := ListQuery(who, call, tool);
            Outcome(e, q).allowed && (!e.enabled || e.defaultAllow || SomeGrantable(e.rules, q))
  {
    var args :| Outcome(e, CallQuery(who, call, Evidence(args, tool))).allowed;
    var ev := Evidence(args, tool);
    CallableIsVisible(e, who, call, ev);
    VerdictIs(e, CallQuery(who, call, ev));
    if e.enabled && !e.defaultAllow {
      var r :| r in e.rules && AllowHits(r, CallQuery(who, call, ev));
      CallAllowIsGrantable(r, who, call, ev);
    }
  }

  lemma ListedIsCallable(e: Engine, who: Option<Principal>, call: Call, tool: Option<ToolAnnotations>)
    requires var q := ListQuery(who, call, tool);
             && DeniesIgnoreArgs(e.rules, q) && Outcome(e, q).allowed
             && (!e.enabled || e.defaultAllow || SomeGrantable(e.rules, q))
    ensures Callable(e, who, call, tool)
  {
    var q := ListQuery(who, call, tool);
    var args: Option<map<string, Json>> := None;
    if e.enabled && !e.defaultAllow {
      var r :| r in e.rules && Grantable(r, q);
      var found := GrantableIsAllowed(r, who, call, tool);
      args := Some(found);
    }
    var ev := Evidence(args, tool);
    if e.enabled { ListedIsNotDenied(e, who, call, ev); }
    VerdictIs(e, CallQuery(who, call, ev));
    assert Outcome(e, CallQuery(who, call, ev)).allowed;
  }

  const IMPOSSIBLE := Clause("*", [], [], [Arg("a", Num(1.0)), Arg("a.b", Num(2.0))], AnyKind)
  const SHOWN_RULE := Rule("shown", None, [IMPOSSIBLE], [], 0)
  const SHOWN_ENGINE := Engine(true, false, [SHOWN_RULE], false, true, false, false, true)

  lemma ImpossibleClause()
    ensures !Compatible(IMPOSSIBLE.args)
  {
    var a, b := IMPOSSIBLE.args[0], IMPOSSIBLE.args[1];
    Glob.SplitWithoutSeparator("a", '.');
    assert Glob.Split(".b", '.') == [""] + Glob.Split("b", '.');
    assert Glob.Split("a.b", '.')[0] == "a";
    assert Segments(a) == ["a"] && Segments(a) <= Segments(b);
    assert !Agree(Segments(a), a.value, Segments(b), b.value);
  }

  /** A tool that everyone is shown and nobody can call. */
  lemma ListedNeverCallable(who: Option<Principal>, call: Call, tool: Option<ToolAnnotations>)
    ensures Outcome(SHOWN_ENGINE, ListQuery(who, call, tool)).allowed && !Callable(SHOWN_ENGINE, who, call, tool)
  {
    var q := ListQuery(who, call, tool);
    ShownRule(q);
    assert SHOWN_ENGINE.rules[0] == SHOWN_RULE;
    VerdictIs(SHOWN_ENGINE, q);
    if Callable(SHOWN_ENGINE, who, call, tool) { CallableIsGrantable(SHOWN_ENGINE, who, call, tool); }
  }

  lemma ShownRule(q: Query)
    requires q.mode.Ignore?
    ensures AllowHits(SHOWN_RULE, q) && !DenyHits(SHOWN_RULE, q) && !Grantable(SHOWN_RULE, q)
  {
    assert Applies(SHOWN_RULE.allow[0], q, Ignore);
    ImpossibleClause();
  }
}
