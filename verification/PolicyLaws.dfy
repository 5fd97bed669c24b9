/**
 What the policy engine promises: deny wins wherever it stands, rule order does not matter,
 what can be called can be seen, and a refusal names the scopes that would lift it.
 */
module PolicyLaws {
  import opened Wrappers
  import opened Subjects
  import opened Policy
  import Glob
  import Ordering

  ghost predicate SomeDeny(rules: seq<Rule>, q: Query) { exists r :: r in rules && DenyHits(r, q) }
  ghost predicate SomeAllow(rules: seq<Rule>, q: Query) { exists r :: r in rules && AllowHits(r, q) }

  lemma {:induction false} FirstDenyMeans(rules: seq<Rule>, i: nat, q: Query)
    requires i <= |rules|
    ensures var k := FirstDeny(rules, i, q);
            (k < |rules| ==> DenyHits(rules[k], q)) && forall j :: i <= j < k ==> !DenyHits(rules[j], q)
    decreases |rules| - i
  {
    if i < |rules| && !DenyHits(rules[i], q) { FirstDenyMeans(rules, i + 1, q); }
  }

  lemma {:induction false} FirstAllowMeans(rules: seq<Rule>, i: nat, q: Query)
    requires i <= |rules|
    ensures var k := FirstAllow(rules, i, q);
            (k < |rules| ==> AllowHits(rules[k], q)) && forall j :: i <= j < k ==> !AllowHits(rules[j], q)
    decreases |rules| - i
  {
    if i < |rules| && !AllowHits(rules[i], q) { FirstAllowMeans(rules, i + 1, q); }
  }

  lemma FirstDenyExists(rules: seq<Rule>, q: Query)
    ensures FirstDeny(rules, 0, q) < |rules| <==> SomeDeny(rules, q)
  {
    FirstDenyMeans(rules, 0, q);
  }

  lemma FirstAllowExists(rules: seq<Rule>, q: Query)
    ensures FirstAllow(rules, 0, q) < |rules| <==> SomeAllow(rules, q)
  {
    FirstAllowMeans(rules, 0, q);
  }

  /** Deny wins; then any allow grants; then the default decides. */
  lemma VerdictIs(e: Engine, q: Query)
    ensures Outcome(e, q).allowed <==>
            !e.enabled || (!SomeDeny(e.rules, q) && (e.defaultAllow || SomeAllow(e.rules, q)))
  {
    FirstDenyExists(e.rules, q);
    FirstAllowExists(e.rules, q);
  }

  /** The package's description: a matching rule allows, otherwise the default decides. */
  ghost predicate FirstMatchAllows(e: Engine, q: Query)
  {
    !e.enabled || SomeAllow(e.rules, q) || e.defaultAllow
  }

  /** Code and description agree exactly when no deny stands against what would be allowed. */
  lemma FirstMatchExact(e: Engine, q: Query)
    ensures (Outcome(e, q).allowed <==> FirstMatchAllows(e, q)) <==>
            !(e.enabled && SomeDeny(e.rules, q) && (SomeAllow(e.rules, q) || e.defaultAllow))
  {
    VerdictIs(e, q);
  }

  const ANYTHING := Clause("*", [], [], [], AnyKind)
  const OPEN_RULE := Rule("open", None, [ANYTHING], [], 0)
  const SHUT_RULE := Rule("shut", None, [], [ANYTHING], 0)
  const OPEN_THEN_SHUT := Engine(true, false, [OPEN_RULE, SHUT_RULE], true, false, false, false, true)

  /** An allow rule ahead of a matching deny: every query is refused, although one rule allows. */
  lemma DenyBehindAllowWins(q: Query)
    ensures FlagsExact(OPEN_THEN_SHUT)
    ensures FirstMatchAllows(OPEN_THEN_SHUT, q) && !Outcome(OPEN_THEN_SHUT, q).allowed
  {
    var rules := OPEN_THEN_SHUT.rules;
    assert rules[0] == OPEN_RULE && rules[1] == SHUT_RULE;
    assert RuleHasDeny(rules[1]);
    assert Applies(OPEN_RULE.allow[0], q, q.mode) && Applies(SHUT_RULE.deny[0], q, DenyMode(q.mode));
    assert AllowHits(rules[0], q) && DenyHits(rules[1], q);
    VerdictIs(OPEN_THEN_SHUT, q);
  }

  // ---- order of rules ----

  /** The verdict and the set of scopes named do not depend on the order of the rules. */
  lemma ReorderKeepsVerdict(e: Engine, e': Engine, q: Query)
    requires multiset(e.rules) == multiset(e'.rules)
    requires e.enabled == e'.enabled && e.defaultAllow == e'.defaultAllow
    ensures Outcome(e, q).allowed == Outcome(e', q).allowed
    ensures forall x :: x in Outcome(e, q).missingScopes <==> x in Outcome(e', q).missingScopes
  {
    Ordering.SameMembers(e.rules, e'.rules);
    assert SomeDeny(e.rules, q) <==> SomeDeny(e'.rules, q);
    assert SomeAllow(e.rules, q) <==> SomeAllow(e'.rules, q);
    VerdictIs(e, q);
    VerdictIs(e', q);
    MissingScopesAre(e, q);
    MissingScopesAre(e', q);
  }

  // ---- calls and lists ----

  lemma ListDenyIsCallDeny(r: Rule, who: Option<Principal>, call: Call, ev: Evidence)
    requires DenyHits(r, ListQuery(who, call, ev.tool))
    ensures DenyHits(r, CallQuery(who, call, ev))
  {
    var i :| 0 <= i < |r.deny| && Applies(r.deny[i], ListQuery(who, call, ev.tool), Skip);
    assert Applies(r.deny[i], CallQuery(who, call, ev), Enforce);
  }

  lemma CallAllowIsListAllow(r: Rule, who: Option<Principal>, call: Call, ev: Evidence)
    requires AllowHits(r, CallQuery(who, call, ev))
    ensures AllowHits(r, ListQuery(who, call, ev.tool))
  {
    var i :| 0 <= i < |r.allow| && Applies(r.allow[i], CallQuery(who, call, ev), Enforce);
    assert Applies(r.allow[i], ListQuery(who, call, ev.tool), Ignore);
  }

  /** A call allowed with any arguments is visible when listed under the same annotations. */
  lemma CallableIsVisible(e: Engine, who: Option<Principal>, call: Call, ev: Evidence)
    requires Outcome(e, CallQuery(who, call, ev)).allowed
    ensures Outcome(e, ListQuery(who, call, ev.tool)).allowed
  {
    var atCall, atList := CallQuery(who, call, ev), ListQuery(who, call, ev.tool);
    VerdictIs(e, atCall);
    VerdictIs(e, atList);
    if SomeDeny(e.rules, atList) {
      var r :| r in e.rules && DenyHits(r, atList);
      ListDenyIsCallDeny(r, who, call, ev);
    }
    if SomeAllow(e.rules, atCall) {
      var r :| r in e.rules && AllowHits(r, atCall);
      CallAllowIsListAllow(r, who, call, ev);
    }
  }

  // ---- the argument named in a refusal ----

  /** Some constraint of some clause that otherwise fits, in a rule that covers the caller. */
  ghost predicate RefusedBy(r: Rule, q: Query, path: string)
  {
    Covers(r.subjects, q.who) && exists i, j ::
      && 0 <= i < |r.allow| && 0 <= j < |r.allow[i].args| && FitsButArgs(r.allow[i], q)
      && !ArgHolds(r.allow[i].args[j], q.ev.args) && r.allow[i].args[j].path == path
  }

  lemma {:induction false} FirstFailedIs(constraints: seq<Arg>, i: nat, args: Option<map<string, Json>>)
    returns (j: nat)
    requires i <= |constraints| && FirstFailed(constraints, i, args) != ""
    ensures i <= j < |constraints| && !ArgHolds(constraints[j], args)
    ensures constraints[j].path == FirstFailed(constraints, i, args)
    decreases |constraints| - i
  {
    if ArgHolds(constraints[i], args) { j := FirstFailedIs(constraints, i + 1, args); } else { j := i; }
  }

  lemma {:induction false} NearMissIs(r: Rule, n: nat, q: Query)
    requires n <= |r.allow| && NearMiss(r.allow, n, q, q.mode) != "" && Covers(r.subjects, q.who)
    ensures q.mode.Enforce? && RefusedBy(r, q, NearMiss(r.allow, n, q, q.mode))
  {
    if NearMiss(r.allow, n - 1, q, q.mode) != "" {
      NearMissIs(r, n - 1, q);
    } else {
      var j := FirstFailedIs(r.allow[n - 1].args, 0, q.ev.args);
    }
  }

  lemma {:induction false} BlockedIs(rules: seq<Rule>, n: nat, q: Query) returns (i: nat)
    requires n <= |rules| && Blocked(rules, n, q) != ""
    ensures i < n && q.mode.Enforce? && RefusedBy(rules[i], q, Blocked(rules, n, q))
  {
    if Blocked(rules, n - 1, q) != "" {
      i := BlockedIs(rules, n - 1, q);
    } else {
      i := n - 1;
      NearMissIs(rules[i], |rules[i].allow|, q);
    }
  }

  /** An argument is named only for a call no rule grants, and only where a rule that covers
      the caller has a clause that fits but for arguments, that one among them. */
  lemma FailedArgIsReal(e: Engine, q: Query)
    requires Outcome(e, q).failedArg != ""
    ensures q.mode.Enforce? && !SomeDeny(e.rules, q) && !SomeAllow(e.rules, q)
    ensures exists r :: r in e.rules && RefusedBy(r, q, Outcome(e, q).failedArg)
  {
    FirstDenyExists(e.rules, q);
    FirstAllowExists(e.rules, q);
    var i := BlockedIs(e.rules, |e.rules|, q);
  }

  /** A clause of the rule, which covers the caller, fits but for arguments, and the first of
      them to fail has a name. */
  ghost predicate NamesPath(r: Rule, q: Query)
  {
    Covers(r.subjects, q.who) && NamesPathIn(r.allow, |r.allow|, q, q.mode)
  }

  ghost predicate NamesPathIn(cs: seq<Clause>, n: nat, q: Query, mode: Mode)
    requires n <= |cs|
  {
    exists i :: 0 <= i < n && NearlyApplies(cs[i], q, mode) && FirstFailed(cs[i].args, 0, q.ev.args) != ""
  }

  lemma {:induction false} NearMissExactly(cs: seq<Clause>, n: nat, q: Query, mode: Mode)
    requires n <= |cs|
    ensures NearMiss(cs, n, q, mode) != "" <==> NamesPathIn(cs, n, q, mode)
  {
    if n > 0 { NearMissExactly(cs, n - 1, q, mode); }
  }

  lemma {:induction false} BlockedExactly(rules: seq<Rule>, n: nat, q: Query)
    requires n <= |rules|
    ensures Blocked(rules, n, q) != "" <==> exists i :: 0 <= i < n && NamesPath(rules[i], q)
  {
    if n > 0 {
      BlockedExactly(rules, n - 1, q);
      NearMissExactly(rules[n - 1].allow, |rules[n - 1].allow|, q, q.mode);
    }
  }

  /** A call that no rule decides names an argument exactly when some rule that covers the caller
      has a clause that fits but for arguments, the first failing one with a non-empty path. */
  lemma FailedArgExactly(e: Engine, q: Query)
    requires Ungranted(e, q)
    ensures Outcome(e, q).failedArg != "" <==> exists r :: r in e.rules && NamesPath(r, q)
  {
    FirstDenyExists(e.rules, q);
    FirstAllowExists(e.rules, q);
    BlockedExactly(e.rules, |e.rules|, q);
    if r :| r in e.rules && NamesPath(r, q) {
      var i :| 0 <= i < |e.rules| && e.rules[i] == r;
    }
  }

  // ---- the scopes named in a refusal ----

  ghost predicate Distinctive(s: seq<string>) { forall i, j :: 0 <= i < j < |s| ==> s[i] != s[j] }

  lemma {:induction false} DistinctMembers(s: seq<string>)
    ensures forall x :: x in Distinct(s) <==> x in s
    ensures Distinctive(Distinct(s))
  {
    if s != [] {
      DistinctMembers(s[..|s| - 1]);
      assert s == s[..|s| - 1] + [s[|s| - 1]];
    }
  }

  ghost predicate SomeShortfall(rules: seq<Rule>, q: Query, x: string)
  {
    exists r :: r in rules && x in Shortfall(r, q)
  }

  lemma {:induction false} GatheredMembers(rules: seq<Rule>, n: nat, q: Query, x: string)
    requires n <= |rules|
    ensures x in Gathered(rules, n, q) <==> SomeShortfall(rules[..n], q, x)
  {
    if n > 0 {
      GatheredMembers(rules, n - 1, q, x);
      assert rules[..n] == rules[..n - 1] + [rules[n - 1]];
      if SomeShortfall(rules[..n], q, x) {
        var r :| r in rules[..n] && x in Shortfall(r, q);
        assert r in rules[..n - 1] || r == rules[n - 1];
      }
    }
  }

  /** The caller is refused for want of a grant, not by a deny. */
  ghost predicate Ungranted(e: Engine, q: Query)
  {
    e.enabled && !SomeDeny(e.rules, q) && !SomeAllow(e.rules, q)
  }

  /** Exactly what the rules that target this call lack, each once, when no rule decided. */
  lemma MissingScopesAre(e: Engine, q: Query)
    ensures Distinctive(Outcome(e, q).missingScopes)
    ensures forall x :: x in Outcome(e, q).missingScopes <==> Ungranted(e, q) && SomeShortfall(e.rules, q, x)
  {
    FirstDenyExists(e.rules, q);
    FirstAllowExists(e.rules, q);
    var all := Gathered(e.rules, |e.rules|, q);
    DistinctMembers(all);
    assert e.rules[..|e.rules|] == e.rules;
    forall x ensures x in all <==> SomeShortfall(e.rules, q, x) { GatheredMembers(e.rules, |e.rules|, q, x); }
  }

  lemma ShortfallIsLacked(r: Rule, q: Query, x: string)
    requires x in Shortfall(r, q)
    ensures q.who.Some? && x !in q.who.value.scopes && r.subjects.Some? && x in r.subjects.value.scopes
  {
    LackingMembers(r.subjects.value.scopes, q.who.value.scopes);
  }

  /** Only scopes the caller lacks are ever named. */
  lemma NamedScopesAreLacked(e: Engine, q: Query, x: string)
    requires x in Outcome(e, q).missingScopes
    ensures q.who.Some? && x !in q.who.value.scopes
  {
    MissingScopesAre(e, q);
    var r :| r in e.rules && x in Shortfall(r, q);
    ShortfallIsLacked(r, q, x);
  }

  function Plus(q: Query, more: seq<string>): Query
    requires q.who.Some?
  {
    q.(who := Some(WithScopes(q.who.value, more)))
  }

  lemma ClausesIgnoreCaller(cs: seq<Clause>, q: Query, q': Query, mode: Mode)
    requires q.call == q'.call && q.ev == q'.ev
    ensures AnyApplies(cs, q, mode) <==> AnyApplies(cs, q', mode)
  {
    forall i | 0 <= i < |cs| ensures Applies(cs[i], q, mode) <==> Applies(cs[i], q', mode) {}
  }

  lemma AppliesTargets(cs: seq<Clause>, q: Query, mode: Mode)
    requires AnyApplies(cs, q, mode)
    ensures AnyTargets(cs, q.call)
  {
    var i :| 0 <= i < |cs| && Applies(cs[i], q, mode);
    assert Targets(cs[i], q.call);
  }

  /** The rule would grant the call to a caller who held the further scopes too. */
  ghost predicate LiftedBy(r: Rule, q: Query, more: seq<string>)
  {
    Shortfall(r, q) != [] && HoldsAll(Shortfall(r, q), more) && AnyApplies(r.allow, q, q.mode)
  }

  lemma RuleLifted(r: Rule, q: Query, more: seq<string>)
    requires q.mode.Enforce? && q.who.Some? && !AllowHits(r, q)
    ensures AllowHits(r, Plus(q, more)) <==> LiftedBy(r, q, more)
  {
    ClausesIgnoreCaller(r.allow, q, Plus(q, more), q.mode);
    if AnyApplies(r.allow, q, q.mode) {
      AppliesTargets(r.allow, q, q.mode);
      UnmetIsExactRemedy(r.subjects, q.who.value, more);
    }
  }

  /** For any further scopes: an ungranted call is granted exactly when some rule is lifted. */
  lemma AddedScopesGrant(e: Engine, q: Query, more: seq<string>)
    requires q.mode.Enforce? && q.who.Some? && Ungranted(e, q)
    ensures SomeAllow(e.rules, Plus(q, more)) <==> exists r :: r in e.rules && LiftedBy(r, q, more)
  {
    forall r | r in e.rules ensures AllowHits(r, Plus(q, more)) <==> LiftedBy(r, q, more) {
      assert !AllowHits(r, q);
      RuleLifted(r, q, more);
    }
  }

  /** The rule was counted into the shortfall and its clauses really apply to the call. */
  ghost predicate TrulyShort(r: Rule, q: Query) { Shortfall(r, q) != [] && AnyApplies(r.allow, q, q.mode) }

  /** A deny that applies to the call and that the further scopes would bring into force. */
  ghost predicate DenyBroughtBy(r: Rule, q: Query, more: seq<string>)
  {
    var unmet := Unmet(r.subjects, q.who);
    AnyApplies(r.deny, q, DenyMode(q.mode)) && unmet != [] && HoldsAll(unmet, more)
  }

  lemma ScopesDeny(r: Rule, q: Query, more: seq<string>)
    requires q.who.Some?
    ensures DenyHits(r, Plus(q, more)) <==> DenyHits(r, q) || DenyBroughtBy(r, q, more)
  {
    ClausesIgnoreCaller(r.deny, q, Plus(q, more), DenyMode(q.mode));
    if Covers(r.subjects, q.who) {
      MoreScopesKeepCover(r.subjects, q.who.value, more);
    } else {
      UnmetIsExactRemedy(r.subjects, q.who.value, more);
    }
  }

  /** For any further scopes: a deny stands against the call exactly when one did before, or
      one that applies to it lacked nothing but scopes now held. */
  lemma AddedScopesDeny(e: Engine, q: Query, more: seq<string>)
    requires q.who.Some?
    ensures SomeDeny(e.rules, Plus(q, more)) <==>
            SomeDeny(e.rules, q) || exists r :: r in e.rules && DenyBroughtBy(r, q, more)
  {
    forall r | r in e.rules ensures DenyHits(r, Plus(q, more)) <==> DenyHits(r, q) || DenyBroughtBy(r, q, more) {
      ScopesDeny(r, q, more);
    }
  }

  lemma NamedLifts(e: Engine, q: Query, r: Rule)
    requires Ungranted(e, q) && r in e.rules
    ensures LiftedBy(r, q, Outcome(e, q).missingScopes) <==> TrulyShort(r, q)
  {
    MissingScopesAre(e, q);
    forall x | x in Shortfall(r, q) ensures x in Outcome(e, q).missingScopes { assert SomeShortfall(e.rules, q, x); }
  }

  /** Obtaining exactly the named scopes lifts the refusal if and only if some rule counted into
      them also applies to the call's arguments and annotations, and no rule with a deny that
      applies lacks nothing but some of them. */
  lemma NamedScopesRemedy(e: Engine, q: Query)
    requires q.mode.Enforce? && q.who.Some? && Ungranted(e, q) && !e.defaultAllow
    ensures var named := Outcome(e, q).missingScopes;
            Outcome(e, Plus(q, named)).allowed <==>
            && (exists r :: r in e.rules && TrulyShort(r, q))
            && !exists r :: r in e.rules && DenyBroughtBy(r, q, named)
  {
    var named := Outcome(e, q).missingScopes;
    AddedScopesGrant(e, q, named);
    AddedScopesDeny(e, q, named);
    forall r | r in e.rules ensures LiftedBy(r, q, named) <==> TrulyShort(r, q) { NamedLifts(e, q, r); }
    VerdictIs(e, Plus(q, named));
  }

  /** No deny clauses, no argument constraints and no annotation gates. */
  ghost predicate Simple(e: Engine)
  {
    PlainRules(e.rules) && forall i :: 0 <= i < |e.rules| ==> e.rules[i].deny == []
  }

  lemma SimpleShort(e: Engine, r: Rule, q: Query)
    requires Simple(e) && r in e.rules
    ensures TrulyShort(r, q) <==> Shortfall(r, q) != []
    ensures !DenyHits(r, q) && !AnyApplies(r.deny, q, DenyMode(q.mode))
  {
    var i :| 0 <= i < |e.rules| && e.rules[i] == r;
    assert PlainRule(e.rules[i]);
    PlainTargets(r.allow, q, q.mode);
  }

  lemma NothingNamed(e: Engine, q: Query)
    requires Ungranted(e, q)
    ensures Outcome(e, q).missingScopes == [] <==> forall r :: r in e.rules ==> Shortfall(r, q) == []
  {
    MissingScopesAre(e, q);
    var named := Outcome(e, q).missingScopes;
    if named != [] {
      assert named[0] in named;
      assert SomeShortfall(e.rules, q, named[0]);
    } else {
      forall r | r in e.rules ensures Shortfall(r, q) == [] {
        if Shortfall(r, q) != [] { assert SomeShortfall(e.rules, q, Shortfall(r, q)[0]); }
      }
    }
  }

  lemma SimpleRefusalIsUngranted(e: Engine, q: Query)
    requires Simple(e) && !Outcome(e, q).allowed
    ensures Ungranted(e, q) && !e.defaultAllow
  {
    VerdictIs(e, q);
    forall r | r in e.rules ensures !DenyHits(r, q) { SimpleShort(e, r, q); }
  }

  /** For documents without deny, argument and annotation clauses a refusal that names scopes
      is lifted by exactly those. */
  lemma NamedScopesSuffice(e: Engine, q: Query)
    requires Simple(e) && q.mode.Enforce? && q.who.Some? && !Outcome(e, q).allowed
    ensures Outcome(e, Plus(q, Outcome(e, q).missingScopes)).allowed <==> Outcome(e, q).missingScopes != []
  {
    var named := Outcome(e, q).missingScopes;
    SimpleRefusalIsUngranted(e, q);
    NamedScopesRemedy(e, q);
    NothingNamed(e, q);
    forall r | r in e.rules ensures !DenyBroughtBy(r, q, named) && (TrulyShort(r, q) <==> Shortfall(r, q) != []) {
      SimpleShort(e, r, q);
    }
  }

  /** And one that names none is not lifted by any. */
  lemma NoScopesWouldHelp(e: Engine, q: Query, more: seq<string>)
    requires Simple(e) && q.mode.Enforce? && q.who.Some? && !Outcome(e, q).allowed
    requires Outcome(e, q).missingScopes == []
    ensures !Outcome(e, Plus(q, more)).allowed
  {
    SimpleRefusalIsUngranted(e, q);
    NothingNamed(e, q);
    AddedScopesGrant(e, q, more);
    VerdictIs(e, Plus(q, more));
  }

  const DEV_ENV := Arg("env", Str("dev"))
  const DEV_CLAUSE := Clause("*", [], [], [DEV_ENV], AnyKind)
  const DEV_RULE := Rule("dev-deploys", Some(Selector([], map[], ["write"], [], [])), [DEV_CLAUSE], [], 0)
  const DEV_ENGINE := Engine(true, false, [DEV_RULE], false, true, false, true, true)

  /** A deployment to production, which no scope of DEV_ENGINE can grant. */
  function ProdCall(p: Principal, call: Call): Query
  {
    CallQuery(Some(p), call, Evidence(Some(map["env" := Str("prod")]), None))
  }

  lemma DevFlagsExact()
    ensures FlagsExact(DEV_ENGINE)
  {
    assert DEV_ENGINE.rules[0] == DEV_RULE && DEV_RULE.allow[0] == DEV_CLAUSE;
    assert RuleHasArgs(DEV_RULE) && RuleHasScopes(DEV_RULE);
  }

  lemma ProdFailsDevClause(p: Principal, call: Call, mode: Mode)
    requires mode.Enforce?
    ensures !AnyApplies(DEV_RULE.allow, ProdCall(p, call), mode)
  {
    Glob.SplitWithoutSeparator("env", '.');
    assert !ArgHolds(DEV_ENV, ProdCall(p, call).ev.args);
    assert !ArgHolds(DEV_CLAUSE.args[0], ProdCall(p, call).ev.args);
  }

  lemma DevShortfall(p: Principal, call: Call)
    requires p.scopes == []
    ensures Shortfall(DEV_RULE, ProdCall(p, call)) == ["write"]
  {
    assert Targets(DEV_RULE.allow[0], call);
    assert Lacking(["write"], []) == ["write"] by { assert Lacking([], []) == []; }
  }

  /** The report does not look at argument constraints: here it names a scope that would not help. */
  lemma NamedScopeMayNotHelp(p: Principal, call: Call)
    requires p.scopes == []
    ensures var q := ProdCall(p, call);
            && FlagsExact(DEV_ENGINE)
            && Outcome(DEV_ENGINE, q).missingScopes == ["write"]
            && !Outcome(DEV_ENGINE, Plus(q, ["write"])).allowed
  {
    var q := ProdCall(p, call);
    DevFlagsExact();
    ProdFailsDevClause(p, call, Enforce);
    ProdFailsDevClause(WithScopes(p, ["write"]), call, Enforce);
    DevShortfall(p, call);
    NoGrant(q);
    NoGrant(Plus(q, ["write"]));
    VerdictIs(DEV_ENGINE, Plus(q, ["write"]));
    var all := Gathered(DEV_ENGINE.rules, 1, q);
    assert all == ["write"] by { assert Gathered(DEV_ENGINE.rules, 0, q) == []; }
    FirstDenyExists(DEV_ENGINE.rules, q);
    FirstAllowExists(DEV_ENGINE.rules, q);
    assert Distinct(all) == ["write"] by { assert all[..0] == []; }
  }

  lemma NoGrant(q: Query)
    requires !AnyApplies(DEV_RULE.allow, q, q.mode)
    ensures !SomeDeny(DEV_ENGINE.rules, q) && !SomeAllow(DEV_ENGINE.rules, q)
  {
    forall r | r in DEV_ENGINE.rules ensures r == DEV_RULE {}
  }

  // ---- the compiled engine means its document ----

  /** toolKind as the configuration spells it. A gate needs annotations that are known. */
  ghost predicate KindMeans(toolKind: string, tool: Option<ToolAnnotations>)
  {
    if toolKind == "readOnly" then tool.Some? && tool.value.readOnly
    else if toolKind == "nonDestructive" then tool.Some? && (tool.value.readOnly || !tool.value.destructive)
    else true
  }

  ghost predicate ClauseFits(a: PolicyClause, q: Query)
  {
    && (a.server == "*" || a.server == q.call.upstream)
    && (a.methods == [] || q.call.rpcMethod in a.methods)
    && (a.names == [] || exists i :: 0 <= i < |a.names| && Glob.Denotes(a.names[i], q.call.name))
    && KindMeans(a.toolKind, q.ev.tool)
  }

  ghost predicate ArgsMet(a: PolicyClause, q: Query)
  {
    q.mode.Enforce? && forall path :: path in a.args ==> ArgHolds(Arg(path, a.args[path]), q.ev.args)
  }

  /** An allow whose arguments cannot be judged shows. */
  ghost predicate AllowMeans(a: PolicyClause, q: Query)
  {
    ClauseFits(a, q) && (a.args == map[] || q.mode.Ignore? || ArgsMet(a, q))
  }

  /** A deny whose arguments cannot be judged does not hide. */
  ghost predicate DenyMeans(a: PolicyClause, q: Query) { ClauseFits(a, q) && (a.args == map[] || ArgsMet(a, q)) }

  ghost predicate RuleDenies(r: PolicyRule, q: Query)
  {
    Covers(r.subjects, q.who) && exists i :: 0 <= i < |r.deny| && DenyMeans(r.deny[i], q)
  }

  ghost predicate RuleAllows(r: PolicyRule, q: Query)
  {
    Covers(r.subjects, q.who) && exists i :: 0 <= i < |r.allow| && AllowMeans(r.allow[i], q)
  }

  /** The document read directly, with patterns as written and no precomputed flags. */
  ghost predicate DocumentAllows(cfg: Option<PolicyConfig>, q: Query)
  {
    cfg.None? ||
    (&& (forall r :: r in cfg.value.rules ==> !RuleDenies(r, q))
     && (cfg.value.defaultDecision == "allow" || exists r :: r in cfg.value.rules && RuleAllows(r, q)))
  }

  lemma EntriesListed(args: map<string, Json>, list: seq<Arg>)
    requires multiset(list) == multiset(Entries(args))
    ensures forall a :: a in list <==> a.path in args && args[a.path] == a.value
    ensures list == [] <==> args == map[]
  {
    forall a ensures a in list <==> a in Entries(args) {
      assert a in list <==> a in multiset(list);
      assert a in Entries(args) <==> a in multiset(Entries(args));
    }
    if args != map[] {
      var path :| path in args;
      assert Arg(path, args[path]) in Entries(args);
    }
    if list != [] { assert list[0] in list; }
  }

  lemma ArgsMean(args: map<string, Json>, list: seq<Arg>, got: Option<map<string, Json>>)
    requires multiset(list) == multiset(Entries(args))
    ensures ArgsHold(list, got) <==> forall path :: path in args ==> ArgHolds(Arg(path, args[path]), got)
  {
    EntriesListed(args, list);
    if ArgsHold(list, got) {
      forall path | path in args ensures ArgHolds(Arg(path, args[path]), got) { assert Arg(path, args[path]) in list; }
    }
    if forall path :: path in args ==> ArgHolds(Arg(path, args[path]), got) {
      forall i | 0 <= i < |list| ensures ArgHolds(list[i], got) {
        assert list[i] in list;
        assert list[i] == Arg(list[i].path, args[list[i].path]);
      }
    }
  }

  lemma NamesMean(a: PolicyClause, c: Clause, name: string)
    requires CompiledClause(a, c)
    ensures NameFits(c.names, name) <==>
            (a.names == [] || exists i :: 0 <= i < |a.names| && Glob.Denotes(a.names[i], name))
  {
    forall i | 0 <= i < |a.names| ensures Glob.Woven(c.names[i], name) <==> Glob.Denotes(a.names[i], name) {
      Glob.SplitKeepsMeaning(a.names[i], name);
    }
  }

  lemma CompiledFits(a: PolicyClause, c: Clause, q: Query)
    requires CompiledClause(a, c)
    ensures FitsButArgs(c, q) <==> ClauseFits(a, q)
  {
    NamesMean(a, c, q.call.name);
  }

  lemma CompiledClauseMeans(a: PolicyClause, c: Clause, q: Query)
    requires CompiledClause(a, c)
    ensures Applies(c, q, q.mode) <==> AllowMeans(a, q)
    ensures Applies(c, q, DenyMode(q.mode)) <==> DenyMeans(a, q)
  {
    CompiledFits(a, c, q);
    EntriesListed(a.args, c.args);
    ArgsMean(a.args, c.args, q.ev.args);
  }

  lemma CompiledRuleMeans(r: PolicyRule, out: Rule, q: Query)
    requires CompiledRule(r, out)
    ensures DenyHits(out, q) <==> RuleDenies(r, q)
    ensures AllowHits(out, q) <==> RuleAllows(r, q)
  {
    forall i | 0 <= i < |r.deny| ensures Applies(out.deny[i], q, DenyMode(q.mode)) <==> DenyMeans(r.deny[i], q) {
      CompiledClauseMeans(r.deny[i], out.deny[i], q);
    }
    forall i | 0 <= i < |r.allow| ensures Applies(out.allow[i], q, q.mode) <==> AllowMeans(r.allow[i], q) {
      CompiledClauseMeans(r.allow[i], out.allow[i], q);
    }
  }

  lemma CompiledRulesMean(rules: seq<PolicyRule>, out: seq<Rule>, q: Query)
    requires |out| == |rules| && CompiledPrefix(rules, out)
    ensures forall i :: 0 <= i < |rules| ==> (DenyHits(out[i], q) <==> RuleDenies(rules[i], q))
    ensures forall i :: 0 <= i < |rules| ==> (AllowHits(out[i], q) <==> RuleAllows(rules[i], q))
  {
    forall i | 0 <= i < |rules|
      ensures (DenyHits(out[i], q) <==> RuleDenies(rules[i], q)) && (AllowHits(out[i], q) <==> RuleAllows(rules[i], q))
    {
      CompiledRuleMeans(rules[i], out[i], q);
    }
  }

  /** Compilation, flags and fast path together decide what the document says. */
  lemma EngineMeansDocument(cfg: Option<PolicyConfig>, e: Engine, q: Query)
    requires Built(cfg, e)
    ensures Outcome(e, q).allowed <==> DocumentAllows(cfg, q)
  {
    VerdictIs(e, q);
    if cfg.Some? {
      CompiledRulesMean(cfg.value.rules, e.rules, q);
      SomeRuleMeans(cfg.value.rules, e.rules, q);
    }
  }

  lemma SomeRuleMeans(rules: seq<PolicyRule>, out: seq<Rule>, q: Query)
    requires |out| == |rules|
    requires forall i :: 0 <= i < |rules| ==> (DenyHits(out[i], q) <==> RuleDenies(rules[i], q))
    requires forall i :: 0 <= i < |rules| ==> (AllowHits(out[i], q) <==> RuleAllows(rules[i], q))
    ensures SomeDeny(out, q) <==> exists r :: r in rules && RuleDenies(r, q)
    ensures SomeAllow(out, q) <==> exists r :: r in rules && RuleAllows(r, q)
  {
    if i :| 0 <= i < |out| && DenyHits(out[i], q) { assert rules[i] in rules; }
    if i :| 0 <= i < |out| && AllowHits(out[i], q) { assert rules[i] in rules; }
    if i :| 0 <= i < |rules| && RuleDenies(rules[i], q) { assert out[i] in out; }
    if i :| 0 <= i < |rules| && RuleAllows(rules[i], q) { assert out[i] in out; }
  }

  lemma FirstDenyIs(rules: seq<Rule>, k: nat, q: Query)
    requires k < |rules| && DenyHits(rules[k], q) && forall j :: 0 <= j < k ==> !DenyHits(rules[j], q)
    ensures FirstDeny(rules, 0, q) == k
  {
    FirstDenyMeans(rules, 0, q);
  }

  lemma FirstAllowIs(rules: seq<Rule>, k: nat, q: Query)
    requires k < |rules| && AllowHits(rules[k], q) && forall j :: 0 <= j < k ==> !AllowHits(rules[j], q)
    ensures FirstAllow(rules, 0, q) == k
  {
    FirstAllowMeans(rules, 0, q);
  }

  /** A refusal by a deny names the first rule of the document that denies. */
  lemma DenyingRuleIsNamed(cfg: PolicyConfig, e: Engine, q: Query, k: nat)
    requires Built(Some(cfg), e) && k < |cfg.rules| && RuleDenies(cfg.rules[k], q)
    requires forall j :: 0 <= j < k ==> !RuleDenies(cfg.rules[j], q)
    ensures Outcome(e, q) == Decision(false, cfg.rules[k].id, 0, "", [])
  {
    CompiledRulesMean(cfg.rules, e.rules, q);
    FirstDenyIs(e.rules, k, q);
    assert CompiledRule(cfg.rules[k], e.rules[k]);
  }

  /** A grant by a rule names the first rule that allows, and has its cap on list items. */
  lemma GrantingRuleIsNamed(cfg: PolicyConfig, e: Engine, q: Query, k: nat)
    requires Built(Some(cfg), e) && k < |cfg.rules| && RuleAllows(cfg.rules[k], q)
    requires forall j :: 0 <= j < k ==> !RuleAllows(cfg.rules[j], q)
    requires forall r :: r in cfg.rules ==> !RuleDenies(r, q)
    ensures Outcome(e, q) == Decision(true, cfg.rules[k].id, cfg.rules[k].maxItems, "", [])
  {
    CompiledRulesMean(cfg.rules, e.rules, q);
    FirstDenyMeans(e.rules, 0, q);
    FirstAllowIs(e.rules, k, q);
    assert CompiledRule(cfg.rules[k], e.rules[k]);
  }

  /** Where no rule decides the default does, and names none. */
  lemma DefaultNamesNone(cfg: PolicyConfig, e: Engine, q: Query)
    requires Built(Some(cfg), e) && forall r :: r in cfg.rules ==> !RuleDenies(r, q) && !RuleAllows(r, q)
    ensures var d := Outcome(e, q);
            d.ruleID == "" && d.maxItems == 0 && (d.allowed <==> cfg.defaultDecision == "allow")
  {
    CompiledRulesMean(cfg.rules, e.rules, q);
    FirstDenyMeans(e.rules, 0, q);
    FirstAllowMeans(e.rules, 0, q);
  }
}
