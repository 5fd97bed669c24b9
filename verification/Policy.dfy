/**
 The policy engine: rules of allow and deny clauses over server, method, name, arguments and
 tool annotations. A matching deny wins wherever it stands; then any matching allow grants;
 then the default decides.
 */
module Policy {
  import opened Wrappers
  import opened Subjects
  import Glob
  import Ordering

  // ---- configuration ----

  datatype PolicyClause = PolicyClause(server: string, methods: seq<string>, names: seq<string>,
                                       args: map<string, Json>, toolKind: string)
  datatype PolicyRule = PolicyRule(id: string, subjects: Option<Selector>, allow: seq<PolicyClause>,
                                   deny: seq<PolicyClause>, maxItems: int)
  datatype PolicyConfig = PolicyConfig(defaultDecision: string, serverInitiatedDecision: string, rules: seq<PolicyRule>)

  // ---- the compiled engine ----

  type Parts = parts: seq<string> | |parts| >= 1 witness [""]

  datatype ToolKind = AnyKind | ReadOnlyKind | NonDestructiveKind
  datatype ToolAnnotations = ToolAnnotations(readOnly: bool, destructive: bool)

  /** path is dotted; value is what the argument there must equal. */
  datatype Arg = Arg(path: string, value: Json)
  datatype Clause = Clause(server: string, methods: seq<string>, names: seq<Parts>, args: seq<Arg>, kind: ToolKind)
  datatype Rule = Rule(id: string, subjects: Option<Selector>, allow: seq<Clause>, deny: seq<Clause>, maxItems: int)
  datatype Engine = Engine(enabled: bool, defaultAllow: bool, rules: seq<Rule>,
                           hasDeny: bool, hasArgs: bool, hasKind: bool, hasScopes: bool,
                           serverInitiatedAllow: bool)

  datatype Decision = Decision(allowed: bool, ruleID: string, maxItems: int, failedArg: string,
                               missingScopes: seq<string>)

  // ---- what is decided ----

  datatype Call = Call(upstream: string, rpcMethod: string, name: string)

  /** None where there is no source or the source yields nothing. */
  datatype Evidence = Evidence(args: Option<map<string, Json>>, tool: Option<ToolAnnotations>)
  datatype Mode = Enforce | Ignore | Skip
  datatype Query = Query(who: Option<Principal>, call: Call, ev: Evidence, mode: Mode)

  function CallQuery(who: Option<Principal>, call: Call, ev: Evidence): Query { Query(who, call, ev, Enforce) }

  function ListQuery(who: Option<Principal>, call: Call, tool: Option<ToolAnnotations>): Query
  {
    Query(who, call, Evidence(None, tool), Ignore)
  }

  // ---- what a clause means ----

  ghost predicate NameFits(names: seq<Parts>, name: string)
  {
    names == [] || exists i :: 0 <= i < |names| && Glob.Woven(names[i], name)
  }

  ghost predicate Targets(c: Clause, call: Call)
  {
    && (c.server == "*" || c.server == call.upstream)
    && (c.methods == [] || call.rpcMethod in c.methods)
    && NameFits(c.names, call.name)
  }

  /** Annotations that cannot be established satisfy no gate. */
  predicate Admits(kind: ToolKind, tool: Option<ToolAnnotations>)
  {
    match kind
    case AnyKind => true
    case ReadOnlyKind => tool.Some? && tool.value.readOnly
    case NonDestructiveKind => tool.Some? && (tool.value.readOnly || !tool.value.destructive)
  }

  /** The value at a path of nested objects. */
  function Lookup(v: Json, path: seq<string>): Option<Json>
  {
    if path == [] then Some(v)
    else if v.Obj? && path[0] in v.fields then Lookup(v.fields[path[0]], path[1..])
    else None
  }

  predicate ArgHolds(a: Arg, args: Option<map<string, Json>>)
  {
    args.Some? && Lookup(Obj(args.value), Glob.Split(a.path, '.')) == Some(a.value)
  }

  predicate ArgsHold(constraints: seq<Arg>, args: Option<map<string, Json>>)
  {
    forall i :: 0 <= i < |constraints| ==> ArgHolds(constraints[i], args)
  }

  ghost predicate FitsButArgs(c: Clause, q: Query) { Targets(c, q.call) && Admits(c.kind, q.ev.tool) }

  ghost predicate Applies(c: Clause, q: Query, mode: Mode)
  {
    FitsButArgs(c, q) && (c.args == [] || mode.Ignore? || (mode.Enforce? && ArgsHold(c.args, q.ev.args)))
  }

  ghost predicate AnyApplies(cs: seq<Clause>, q: Query, mode: Mode)
  {
    exists i :: 0 <= i < |cs| && Applies(cs[i], q, mode)
  }

  ghost predicate AnyTargets(cs: seq<Clause>, call: Call) { exists i :: 0 <= i < |cs| && Targets(cs[i], call) }

  /** A deny whose arguments cannot be judged does not hide. */
  function DenyMode(mode: Mode): Mode { if mode.Ignore? then Skip else mode }

  ghost predicate DenyHits(r: Rule, q: Query) { Covers(r.subjects, q.who) && AnyApplies(r.deny, q, DenyMode(q.mode)) }

  ghost predicate AllowHits(r: Rule, q: Query) { Covers(r.subjects, q.who) && AnyApplies(r.allow, q, q.mode) }

  // ---- what the decision is ----

  /** The first rule from i on whose deny clauses hit, or the number of rules. */
  ghost function FirstDeny(rules: seq<Rule>, i: nat, q: Query): (k: nat)
    requires i <= |rules|
    ensures i <= k <= |rules|
    decreases |rules| - i
  {
    if i == |rules| || DenyHits(rules[i], q) then i else FirstDeny(rules, i + 1, q)
  }

  /** The first rule from i on whose allow clauses hit, or the number of rules. */
  ghost function FirstAllow(rules: seq<Rule>, i: nat, q: Query): (k: nat)
    requires i <= |rules|
    ensures i <= k <= |rules|
    decreases |rules| - i
  {
    if i == |rules| || AllowHits(rules[i], q) then i else FirstAllow(rules, i + 1, q)
  }

  /** The first constraint that fails, from i on. */
  function FirstFailed(constraints: seq<Arg>, i: nat, args: Option<map<string, Json>>): (path: string)
    requires i <= |constraints|
    decreases |constraints| - i
  {
    if i == |constraints| then ""
    else if ArgHolds(constraints[i], args) then FirstFailed(constraints, i + 1, args)
    else constraints[i].path
  }

  ghost predicate NearlyApplies(c: Clause, q: Query, mode: Mode)
  {
    mode.Enforce? && FitsButArgs(c, q) && !ArgsHold(c.args, q.ev.args)
  }

  /** The first non-empty failing path among clauses refused by their arguments alone. */
  ghost function NearMiss(cs: seq<Clause>, n: nat, q: Query, mode: Mode): string
    requires n <= |cs|
  {
    if n == 0 then ""
    else
      var before := NearMiss(cs, n - 1, q, mode);
      if before == "" && NearlyApplies(cs[n - 1], q, mode) then FirstFailed(cs[n - 1].args, 0, q.ev.args) else before
  }

  /** A rule that does not cover the caller gives away nothing. */
  ghost function RuleNearMiss(r: Rule, q: Query): string
  {
    if Covers(r.subjects, q.who) then NearMiss(r.allow, |r.allow|, q, q.mode) else ""
  }

  ghost function Blocked(rules: seq<Rule>, n: nat, q: Query): string
    requires n <= |rules|
  {
    if n == 0 then ""
    else
      var before := Blocked(rules, n - 1, q);
      if before == "" then RuleNearMiss(rules[n - 1], q) else before
  }

  /** Each member once, where it first occurs. */
  function Distinct(scopes: seq<string>): seq<string>
  {
    if scopes == [] then []
    else
      var before := Distinct(scopes[..|scopes| - 1]);
      var last := scopes[|scopes| - 1];
      if last in before then before else before + [last]
  }

  /** What a rule adds to the shortfall of a call: its unmet scopes, if it targets this call. */
  ghost function Shortfall(r: Rule, q: Query): seq<string>
  {
    if q.mode.Enforce? && AnyTargets(r.allow, q.call) then Unmet(r.subjects, q.who) else []
  }

  /** What the first n rules add, one after the other. */
  ghost function Gathered(rules: seq<Rule>, n: nat, q: Query): seq<string>
    requires n <= |rules|
  {
    if n == 0 then [] else Gathered(rules, n - 1, q) + Shortfall(rules[n - 1], q)
  }

  ghost function Outcome(e: Engine, q: Query): Decision
  {
    var n := |e.rules|;
    if !e.enabled then Decision(true, "", 0, "", [])
    else
      var d, a := FirstDeny(e.rules, 0, q), FirstAllow(e.rules, 0, q);
      if d < n then Decision(false, e.rules[d].id, 0, "", [])
      else if a < n then Decision(true, e.rules[a].id, e.rules[a].maxItems, "", [])
      else Decision(e.defaultAllow, "", 0, Blocked(e.rules, n, q), Distinct(Gathered(e.rules, n, q)))
  }

  // ---- construction ----

  predicate AnyArgs(cs: seq<Clause>) { exists i :: 0 <= i < |cs| && cs[i].args != [] }
  predicate AnyKinds(cs: seq<Clause>) { exists i :: 0 <= i < |cs| && cs[i].kind != AnyKind }
  predicate RuleHasArgs(r: Rule) { AnyArgs(r.allow) || AnyArgs(r.deny) }
  predicate RuleHasKind(r: Rule) { AnyKinds(r.allow) || AnyKinds(r.deny) }
  predicate RuleHasScopes(r: Rule) { r.subjects.Some? && r.subjects.value.scopes != [] }
  predicate RuleHasDeny(r: Rule) { r.deny != [] }

  ghost predicate SomeRule(rules: seq<Rule>, has: Rule -> bool) { exists i :: 0 <= i < |rules| && has(rules[i]) }

  /** The flags say exactly what the rules contain. */
  ghost predicate FlagsExact(e: Engine)
  {
    && (e.hasDeny <==> SomeRule(e.rules, RuleHasDeny))
    && (e.hasScopes <==> SomeRule(e.rules, RuleHasScopes))
    && (e.hasArgs <==> SomeRule(e.rules, RuleHasArgs))
    && (e.hasKind <==> SomeRule(e.rules, RuleHasKind))
  }

  function KindOf(toolKind: string): ToolKind
  {
    if toolKind == "readOnly" then ReadOnlyKind
    else if toolKind == "nonDestructive" then NonDestructiveKind
    else AnyKind
  }

  function Entries(args: map<string, Json>): set<Arg> { set path | path in args :: Arg(path, args[path]) }

  function PathOf(a: Arg): string { a.path }

  ghost predicate CompiledClause(a: PolicyClause, c: Clause)
  {
    && c.server == a.server && c.methods == a.methods && c.kind == KindOf(a.toolKind)
    && |c.names| == |a.names| && (forall i :: 0 <= i < |a.names| ==> c.names[i] == Glob.Split(a.names[i], '*'))
    && multiset(c.args) == multiset(Entries(a.args)) && Ordering.SortedBy(c.args, PathOf)
  }

  ghost predicate CompiledAll(cs: seq<PolicyClause>, out: seq<Clause>)
  {
    |out| == |cs| && forall i :: 0 <= i < |cs| ==> CompiledClause(cs[i], out[i])
  }

  ghost predicate CompiledRule(r: PolicyRule, out: Rule)
  {
    && out.id == r.id && out.subjects == r.subjects && out.maxItems == r.maxItems
    && CompiledAll(r.allow, out.allow) && CompiledAll(r.deny, out.deny)
  }

  ghost predicate CompiledPrefix(rules: seq<PolicyRule>, out: seq<Rule>)
  {
    |out| <= |rules| && forall i :: 0 <= i < |out| ==> CompiledRule(rules[i], out[i])
  }

  ghost predicate Built(cfg: Option<PolicyConfig>, e: Engine)
  {
    && e.enabled == cfg.Some? && FlagsExact(e)
    && (cfg.Some? ==>
          && (e.defaultAllow <==> cfg.value.defaultDecision == "allow")
          && (e.serverInitiatedAllow <==> cfg.value.serverInitiatedDecision != "deny")
          && |e.rules| == |cfg.value.rules| && CompiledPrefix(cfg.value.rules, e.rules))
  }

  /** The constraints in order of their paths, whatever order the map yields them in. */
  method CompileArgs(args: map<string, Json>) returns (out: seq<Arg>)
    ensures multiset(out) == multiset(Entries(args)) && Ordering.SortedBy(out, PathOf)
  {
    var list: seq<Arg> := [];
    var todo := args.Keys;
    ghost var taken: set<Arg> := {};
    while todo != {}
      invariant todo <= args.Keys
      invariant taken == set path | path in args && path !in todo :: Arg(path, args[path])
      invariant multiset(list) == multiset(taken)
    {
      var path :| path in todo;
      todo := todo - {path};
      taken := taken + {Arg(path, args[path])};
      list := list + [Arg(path, args[path])];
    }
    assert taken == Entries(args);
    out := Ordering.SortBy(list, PathOf);
    Ordering.SortBySorts(list, PathOf);
  }

  method CompileClause(a: PolicyClause) returns (c: Clause)
    ensures CompiledClause(a, c)
  {
    var names: seq<Parts> := [];
    for i := 0 to |a.names|
      invariant |names| == i && forall j :: 0 <= j < i ==> names[j] == Glob.Split(a.names[j], '*')
    {
      names := names + [Glob.Split(a.names[i], '*')];
    }
    var args := CompileArgs(a.args);
    c := Clause(a.server, a.methods, names, args, KindOf(a.toolKind));
  }

  method CompileClauses(cs: seq<PolicyClause>) returns (out: seq<Clause>)
    ensures CompiledAll(cs, out)
  {
    out := [];
    for i := 0 to |cs|
      invariant |out| == i && forall j :: 0 <= j < i ==> CompiledClause(cs[j], out[j])
    {
      var c := CompileClause(cs[i]);
      out := out + [c];
    }
  }

  /** One pass of the flag scan over a clause list. */
  method ScanFlags(cs: seq<Clause>, args: bool, kind: bool) returns (args': bool, kind': bool)
    ensures args' <==> args || AnyArgs(cs)
    ensures kind' <==> kind || AnyKinds(cs)
  {
    args', kind' := args, kind;
    for i := 0 to |cs|
      invariant args' <==> args || exists j :: 0 <= j < i && cs[j].args != []
      invariant kind' <==> kind || exists j :: 0 <= j < i && cs[j].kind != AnyKind
    {
      if |cs[i].args| > 0 { args' := true; }
      if cs[i].kind != AnyKind { kind' := true; }
    }
  }

  method ScanRule(r: Rule, args: bool, kind: bool) returns (args': bool, kind': bool)
    ensures args' <==> args || RuleHasArgs(r)
    ensures kind' <==> kind || RuleHasKind(r)
  {
    args', kind' := ScanFlags(r.allow, args, kind);
    args', kind' := ScanFlags(r.deny, args', kind');
  }

  method CompileRule(r: PolicyRule) returns (out: Rule)
    ensures CompiledRule(r, out)
  {
    var allow := CompileClauses(r.allow);
    var deny := CompileClauses(r.deny);
    out := Rule(r.id, r.subjects, allow, deny, r.maxItems);
  }

  method AddRule(e: Engine, r: Rule) returns (e': Engine)
    requires FlagsExact(e)
    ensures FlagsExact(e')
    ensures e'.rules == e.rules + [r] && e'.enabled == e.enabled && e'.defaultAllow == e.defaultAllow
    ensures e'.serverInitiatedAllow == e.serverInitiatedAllow
  {
    var hasDeny := e.hasDeny || |r.deny| > 0;
    var hasScopes := e.hasScopes || (r.subjects.Some? && |r.subjects.value.scopes| > 0);
    var hasArgs, hasKind := ScanRule(r, e.hasArgs, e.hasKind);
    e' := Engine(e.enabled, e.defaultAllow, e.rules + [r], hasDeny, hasArgs, hasKind, hasScopes,
                 e.serverInitiatedAllow);
    FlagsSnoc(e, e', r);
  }

  lemma FlagsSnoc(e: Engine, e': Engine, r: Rule)
    requires FlagsExact(e) && e'.rules == e.rules + [r]
    requires (e'.hasDeny <==> e.hasDeny || RuleHasDeny(r)) && (e'.hasScopes <==> e.hasScopes || RuleHasScopes(r))
    requires (e'.hasArgs <==> e.hasArgs || RuleHasArgs(r)) && (e'.hasKind <==> e.hasKind || RuleHasKind(r))
    ensures FlagsExact(e')
  {
    SomeRuleSnoc(e.rules, r, RuleHasDeny);
    SomeRuleSnoc(e.rules, r, RuleHasScopes);
    SomeRuleSnoc(e.rules, r, RuleHasArgs);
    SomeRuleSnoc(e.rules, r, RuleHasKind);
  }

  lemma SomeRuleSnoc(rules: seq<Rule>, r: Rule, has: Rule -> bool)
    ensures SomeRule(rules + [r], has) <==> SomeRule(rules, has) || has(r)
  {
    var all := rules + [r];
    assert all[|rules|] == r && forall i :: 0 <= i < |rules| ==> all[i] == rules[i];
  }

  lemma CompiledPrefixSnoc(rules: seq<PolicyRule>, out: seq<Rule>, r: Rule)
    requires CompiledPrefix(rules, out) && |out| < |rules| && CompiledRule(rules[|out|], r)
    ensures CompiledPrefix(rules, out + [r])
  {
  }

  /** New: the compiled rules in order, with flags that say exactly what they contain. */
  method New(cfg: Option<PolicyConfig>) returns (e: Engine)
    ensures Built(cfg, e)
    ensures cfg.None? ==> e.defaultAllow
  {
    if cfg.None? { return Engine(false, true, [], false, false, false, false, false); }
    var c := cfg.value;
    e := Engine(true, c.defaultDecision == "allow", [], false, false, false, false,
                c.serverInitiatedDecision != "deny");
    for i := 0 to |c.rules|
      invariant FlagsExact(e) && e.enabled && (e.defaultAllow <==> c.defaultDecision == "allow")
      invariant e.serverInitiatedAllow <==> c.serverInitiatedDecision != "deny"
      invariant |e.rules| == i && CompiledPrefix(c.rules, e.rules)
    {
      var r := CompileRule(c.rules[i]);
      CompiledPrefixSnoc(c.rules, e.rules, r);
      e := AddRule(e, r);
    }
  }

  // ---- evaluation ----

  method LookupPath(args: map<string, Json>, path: seq<string>) returns (r: Option<Json>)
    ensures r == Lookup(Obj(args), path)
  {
    var cur := Obj(args);
    for i := 0 to |path|
      invariant Lookup(Obj(args), path) == Lookup(cur, path[i..])
    {
      if !cur.Obj? || path[i] !in cur.fields { return None; }
      cur := cur.fields[path[i]];
    }
    return Some(cur);
  }

  method ArgsSatisfied(constraints: seq<Arg>, args: Option<map<string, Json>>) returns (ok: bool, path: string)
    ensures ok <==> ArgsHold(constraints, args)
    ensures path == FirstFailed(constraints, 0, args)
  {
    if |constraints| == 0 { return true, ""; }
    if args.None? { return false, constraints[0].path; }
    for i := 0 to |constraints|
      invariant forall j :: 0 <= j < i ==> ArgHolds(constraints[j], args)
      invariant FirstFailed(constraints, 0, args) == FirstFailed(constraints, i, args)
    {
      var v := LookupPath(args.value, Glob.Split(constraints[i].path, '.'));
      if v.None? || !ClaimEqual(v.value, constraints[i].value) { return false, constraints[i].path; }
    }
    return true, "";
  }

  method GlobAny(names: seq<Parts>, name: string) returns (ok: bool)
    ensures ok <==> exists i :: 0 <= i < |names| && Glob.Woven(names[i], name)
  {
    for i := 0 to |names|
      invariant forall j :: 0 <= j < i ==> !Glob.Woven(names[j], name)
    {
      var hit := Glob.Match(names[i], name);
      if hit { return true; }
    }
    return false;
  }

  /** The test of one clause shared by both matchers. */
  method OnTarget(c: Clause, call: Call) returns (ok: bool)
    ensures ok <==> Targets(c, call)
  {
    if c.server != "*" && c.server != call.upstream { return false; }
    if |c.methods| > 0 && call.rpcMethod !in c.methods { return false; }
    if |c.names| == 0 { return true; }
    ok := GlobAny(c.names, call.name);
  }

  method Matches(cs: seq<Clause>, call: Call) returns (ok: bool)
    ensures ok <==> AnyTargets(cs, call)
  {
    for i := 0 to |cs|
      invariant forall j :: 0 <= j < i ==> !Targets(cs[j], call)
    {
      var hit := OnTarget(cs[i], call);
      if hit { return true; }
    }
    return false;
  }

  /** One clause of the argument-aware matcher: whether it applies, else what it was refused for. */
  method TryClause(c: Clause, q: Query, mode: Mode) returns (ok: bool, nearly: bool, path: string)
    ensures ok <==> Applies(c, q, mode)
    ensures nearly <==> !ok && NearlyApplies(c, q, mode)
    ensures nearly ==> path == FirstFailed(c.args, 0, q.ev.args)
  {
    nearly, path := false, "";
    ok := OnTarget(c, q.call);
    if !ok { return; }
    if c.kind != AnyKind && !Admits(c.kind, q.ev.tool) { return false, false, ""; }
    if |c.args| == 0 { return true, false, ""; }
    if mode.Skip? { return false, false, ""; }
    if mode.Enforce? {
      ok, path := ArgsSatisfied(c.args, q.ev.args);
      nearly := !ok;
    }
  }

  method MatchesArgs(cs: seq<Clause>, q: Query, mode: Mode) returns (ok: bool, failed: string)
    ensures ok <==> AnyApplies(cs, q, mode)
    ensures failed == if ok then "" else NearMiss(cs, |cs|, q, mode)
  {
    failed := "";
    for i := 0 to |cs|
      invariant forall j :: 0 <= j < i ==> !Applies(cs[j], q, mode)
      invariant failed == NearMiss(cs, i, q, mode)
    {
      var hit, nearly, path := TryClause(cs[i], q, mode);
      if hit { return true, ""; }
      if nearly && failed == "" { failed := path; }
    }
    return false, failed;
  }

  class ScopeShortfall {
    var seen: set<string>
    var out: seq<string>
    ghost var added: seq<string>

    ghost predicate Valid()
      reads this
    {
      out == Distinct(added) && forall x :: x in seen <==> x in out
    }

    constructor ()
      ensures Valid() && added == []
    {
      seen, out, added := {}, [], [];
    }

    method Add(scopes: seq<string>)
      requires Valid()
      modifies this
      ensures Valid() && added == old(added) + scopes
    {
      for i := 0 to |scopes|
        invariant Valid() && added == old(added) + scopes[..i]
      {
        AddOne(scopes[i]);
        assert scopes[..i + 1] == scopes[..i] + [scopes[i]];
      }
      assert scopes[..|scopes|] == scopes;
    }

    method AddOne(scope: string)
      requires Valid()
      modifies this
      ensures Valid() && added == old(added) + [scope]
    {
      assert (added + [scope])[..|added|] == added;
      if scope !in seen {
        seen := seen + {scope};
        out := out + [scope];
      }
      added := added + [scope];
    }

    /** What was added, without repeats and in order of first mention. */
    method List() returns (r: seq<string>)
      requires Valid()
      ensures r == Distinct(added)
    {
      r := out;
    }
  }

  ghost predicate PlainClauses(cs: seq<Clause>) { !AnyArgs(cs) && !AnyKinds(cs) }

  lemma PlainTargets(cs: seq<Clause>, q: Query, mode: Mode)
    requires PlainClauses(cs)
    ensures AnyApplies(cs, q, mode) <==> AnyTargets(cs, q.call)
  {
    forall i | 0 <= i < |cs| ensures Applies(cs[i], q, mode) <==> Targets(cs[i], q.call) {}
  }

  lemma {:induction false} PlainHasNoNearMiss(cs: seq<Clause>, n: nat, q: Query, mode: Mode)
    requires PlainClauses(cs) && n <= |cs|
    ensures NearMiss(cs, n, q, mode) == ""
  {
    if n > 0 { PlainHasNoNearMiss(cs, n - 1, q, mode); }
  }

  ghost predicate PlainRule(r: Rule) { PlainClauses(r.allow) && PlainClauses(r.deny) }

  ghost predicate PlainRules(rules: seq<Rule>) { forall i :: 0 <= i < |rules| ==> PlainRule(rules[i]) }

  lemma {:induction false} PlainIsNeverBlocked(rules: seq<Rule>, n: nat, q: Query)
    requires PlainRules(rules) && n <= |rules|
    ensures Blocked(rules, n, q) == ""
  {
    if n > 0 {
      PlainIsNeverBlocked(rules, n - 1, q);
      PlainHasNoNearMiss(rules[n - 1].allow, |rules[n - 1].allow|, q, q.mode);
    }
  }

  lemma {:induction false} NoDenyFirst(rules: seq<Rule>, i: nat, q: Query)
    requires i <= |rules| && forall j :: i <= j < |rules| ==> rules[j].deny == []
    ensures FirstDeny(rules, i, q) == |rules|
    decreases |rules| - i
  {
    if i < |rules| { NoDenyFirst(rules, i + 1, q); }
  }

  /** The deny scan of the fast path. */
  method DenyScanFast(rules: seq<Rule>, q: Query) returns (k: nat)
    requires PlainRules(rules)
    ensures k == FirstDeny(rules, 0, q)
  {
    for i := 0 to |rules|
      invariant FirstDeny(rules, 0, q) == FirstDeny(rules, i, q)
    {
      var r := rules[i];
      assert PlainRule(r);
      PlainTargets(r.deny, q, DenyMode(q.mode));
      if |r.deny| > 0 {
        var covered := MatchSubjects(r.subjects, q.who);
        if covered {
          var hit := Matches(r.deny, q.call);
          if hit {
            return i;
          }
        }
      }
    }
    return |rules|;
  }

  /** The deny scan of the argument-aware path. */
  method DenyScanSlow(rules: seq<Rule>, q: Query) returns (k: nat)
    ensures k == FirstDeny(rules, 0, q)
  {
    for i := 0 to |rules|
      invariant FirstDeny(rules, 0, q) == FirstDeny(rules, i, q)
    {
      var r := rules[i];
      if |r.deny| > 0 {
        var covered := MatchSubjects(r.subjects, q.who);
        if covered {
          var hit, path := MatchesArgs(r.deny, q, DenyMode(q.mode));
          if hit {
            return i;
          }
        }
      }
    }
    return |rules|;
  }

  lemma CoveredHasNoShortfall(r: Rule, q: Query)
    requires Covers(r.subjects, q.who) || !RuleHasScopes(r)
    ensures Shortfall(r, q) == []
  {
    if r.subjects.Some? && q.who.Some? { LackingNone(r.subjects.value.scopes, q.who.value.scopes); }
  }

  /** Books what an uncovered rule lacks. */
  method NoteShortfall(r: Rule, q: Query, hasScopes: bool, unmet: seq<string>, short: ScopeShortfall)
    requires short.Valid() && unmet == Unmet(r.subjects, q.who)
    requires !hasScopes ==> !RuleHasScopes(r)
    modifies short
    ensures short.Valid() && short.added == old(short.added) + Shortfall(r, q)
  {
    if !hasScopes { CoveredHasNoShortfall(r, q); }
    if hasScopes && q.mode.Enforce? && |unmet| > 0 {
      var hit := Matches(r.allow, q.call);
      if hit { short.Add(unmet); }
    }
  }

  /** One rule of the fast allow scan. */
  method TryRuleFast(r: Rule, q: Query, hasScopes: bool, short: ScopeShortfall) returns (hit: bool)
    requires short.Valid() && PlainRule(r) && (hasScopes || !RuleHasScopes(r))
    modifies short
    ensures short.Valid() && short.added == old(short.added) + Shortfall(r, q)
    ensures hit <==> AllowHits(r, q)
  {
    PlainTargets(r.allow, q, q.mode);
    var ok, unmet := MatchWhy(r.subjects, q.who);
    if !ok {
      NoteShortfall(r, q, hasScopes, unmet, short);
      return false;
    }
    CoveredHasNoShortfall(r, q);
    hit := Matches(r.allow, q.call);
  }

  /** What the argument-aware allow scan knows after the first i rules. */
  ghost predicate Scanned(rules: seq<Rule>, i: nat, q: Query, added: seq<string>, blockedBy: string)
    requires i <= |rules|
  {
    && added == Gathered(rules, i, q) && blockedBy == Blocked(rules, i, q)
    && FirstAllow(rules, 0, q) == FirstAllow(rules, i, q)
  }

  lemma ScannedStep(rules: seq<Rule>, i: nat, q: Query, added: seq<string>, blockedBy: string)
    requires i < |rules| && Scanned(rules, i, q, added, blockedBy) && !AllowHits(rules[i], q)
    ensures Scanned(rules, i + 1, q, added + Shortfall(rules[i], q),
                    if blockedBy == "" then RuleNearMiss(rules[i], q) else blockedBy)
  {
  }

  /** One rule of the argument-aware allow scan. */
  method TryRuleSlow(r: Rule, q: Query, hasScopes: bool, short: ScopeShortfall) returns (hit: bool, failed: string)
    requires short.Valid() && (hasScopes || !RuleHasScopes(r))
    modifies short
    ensures short.Valid() && short.added == old(short.added) + Shortfall(r, q)
    ensures hit <==> AllowHits(r, q)
    ensures !hit ==> failed == RuleNearMiss(r, q)
  {
    var ok, unmet := MatchWhy(r.subjects, q.who);
    if !ok {
      NoteShortfall(r, q, hasScopes, unmet, short);
      return false, "";
    }
    CoveredHasNoShortfall(r, q);
    hit, failed := MatchesArgs(r.allow, q, q.mode);
  }

  /** The loop body: the scan either ends at rule i or moves past it, keeping the first near miss. */
  method AdvanceSlow(e: Engine, i: nat, q: Query, short: ScopeShortfall, blockedBy: string)
    returns (hit: bool, blocked: string)
    requires i < |e.rules| && short.Valid() && (e.hasScopes || !RuleHasScopes(e.rules[i]))
    requires Scanned(e.rules, i, q, short.added, blockedBy)
    modifies short
    ensures short.Valid()
    ensures hit ==> FirstAllow(e.rules, 0, q) == i
    ensures !hit ==> Scanned(e.rules, i + 1, q, short.added, blocked)
  {
    ghost var before := short.added;
    var failed;
    hit, failed := TryRuleSlow(e.rules[i], q, e.hasScopes, short);
    blocked := if blockedBy == "" then failed else blockedBy;
    if !hit { ScannedStep(e.rules, i, q, before, blockedBy); }
  }

  /** The allow scan of the fast path: the first granting rule, or what the caller lacks. */
  method AllowScanFast(e: Engine, q: Query) returns (k: nat, lacked: seq<string>)
    requires (e.hasScopes || NoScopes(e.rules)) && PlainRules(e.rules)
    ensures k == FirstAllow(e.rules, 0, q)
    ensures k == |e.rules| ==> lacked == Distinct(Gathered(e.rules, |e.rules|, q))
  {
    var short := new ScopeShortfall();
    for i := 0 to |e.rules|
      invariant short.Valid() && fresh(short) && short.added == Gathered(e.rules, i, q)
      invariant FirstAllow(e.rules, 0, q) == FirstAllow(e.rules, i, q)
    {
      assert PlainRule(e.rules[i]);
      var hit := TryRuleFast(e.rules[i], q, e.hasScopes, short);
      if hit {
        return i, [];
      }
    }
    lacked := short.List();
    return |e.rules|, lacked;
  }

  /** The allow scan of the argument-aware path, which also notes the first near miss. */
  method AllowScanSlow(e: Engine, q: Query) returns (k: nat, blockedBy: string, lacked: seq<string>)
    requires e.hasScopes || NoScopes(e.rules)
    ensures k == FirstAllow(e.rules, 0, q)
    ensures k == |e.rules| ==> lacked == Distinct(Gathered(e.rules, |e.rules|, q))
    ensures k == |e.rules| ==> blockedBy == Blocked(e.rules, |e.rules|, q)
  {
    var short := new ScopeShortfall();
    blockedBy := "";
    for i := 0 to |e.rules|
      invariant short.Valid() && fresh(short)
      invariant Scanned(e.rules, i, q, short.added, blockedBy)
    {
      var hit, blocked := AdvanceSlow(e, i, q, short, blockedBy);
      if hit { return i, "", []; }
      blockedBy := blocked;
    }
    lacked := short.List();
    return |e.rules|, blockedBy, lacked;
  }

  ghost predicate NoScopes(rules: seq<Rule>) { forall i :: 0 <= i < |rules| ==> !RuleHasScopes(rules[i]) }

  lemma NoScopesWithoutFlag(e: Engine)
    requires FlagsExact(e)
    ensures e.hasScopes || NoScopes(e.rules)
  {
  }

  lemma FlagsMakePlain(e: Engine)
    requires FlagsExact(e) && !e.hasArgs && !e.hasKind
    ensures PlainRules(e.rules)
  {
    forall i | 0 <= i < |e.rules| ensures PlainRule(e.rules[i]) {
      assert !RuleHasArgs(e.rules[i]) && !RuleHasKind(e.rules[i]);
    }
  }

  /** The path of documents with neither arguments nor annotation gates. */
  method DecideFast(e: Engine, q: Query) returns (d: Decision)
    requires FlagsExact(e) && e.enabled && PlainRules(e.rules)
    ensures d == Outcome(e, q)
  {
    if !e.hasDeny { NoDenyWithoutFlag(e, q); }
    if e.hasDeny {
      var k := DenyScanFast(e.rules, q);
      if k < |e.rules| { return Decision(false, e.rules[k].id, 0, "", []); }
    }
    NoScopesWithoutFlag(e);
    var k, lacked := AllowScanFast(e, q);
    if k < |e.rules| { return Decision(true, e.rules[k].id, e.rules[k].maxItems, "", []); }
    PlainIsNeverBlocked(e.rules, |e.rules|, q);
    return Decision(e.defaultAllow, "", 0, "", lacked);
  }

  /** The general path. It meets the same specification, so skipping it changes nothing. */
  method DecideSlow(e: Engine, q: Query) returns (d: Decision)
    requires FlagsExact(e) && e.enabled
    ensures d == Outcome(e, q)
  {
    if !e.hasDeny { NoDenyWithoutFlag(e, q); }
    if e.hasDeny {
      var k := DenyScanSlow(e.rules, q);
      if k < |e.rules| { return Decision(false, e.rules[k].id, 0, "", []); }
    }
    NoScopesWithoutFlag(e);
    var k, blockedBy, lacked := AllowScanSlow(e, q);
    if k < |e.rules| { return Decision(true, e.rules[k].id, e.rules[k].maxItems, "", []); }
    return Decision(e.defaultAllow, "", 0, blockedBy, lacked);
  }

  lemma NoDenyWithoutFlag(e: Engine, q: Query)
    requires FlagsExact(e) && !e.hasDeny
    ensures FirstDeny(e.rules, 0, q) == |e.rules|
  {
    forall j | 0 <= j < |e.rules| ensures e.rules[j].deny == [] { assert !RuleHasDeny(e.rules[j]); }
    NoDenyFirst(e.rules, 0, q);
  }

  method Decide(e: Engine, q: Query) returns (d: Decision)
    requires FlagsExact(e)
    ensures d == Outcome(e, q)
  {
    if !e.enabled { return Decision(true, "", 0, "", []); }
    if !e.hasArgs && !e.hasKind {
      FlagsMakePlain(e);
      d := DecideFast(e, q);
    } else {
      d := DecideSlow(e, q);
    }
  }

  /** The question an upstream's request of the caller's client puts to the rules: server and
      method only, and the empty name. */
  function ServerQuery(who: Option<Principal>, upstream: string, rpcMethod: string): Query
  {
    Query(who, Call(upstream, rpcMethod, ""), Evidence(None, None), Ignore)
  }

  /** DecideServerInitiated: allowed outright unless the document opted into a default of deny,
      and then exactly as the rules decide. */
  method DecideServerInitiated(e: Engine, who: Option<Principal>, upstream: string, rpcMethod: string)
    returns (d: Decision)
    requires FlagsExact(e)
    ensures !e.enabled || e.serverInitiatedAllow ==> d == Decision(true, "", 0, "", [])
    ensures e.enabled && !e.serverInitiatedAllow ==>
              d == Outcome(e, Query(who, Call(upstream, rpcMethod, ""), Evidence(None, None), Ignore))
  {
    if !e.enabled || e.serverInitiatedAllow { return Decision(true, "", 0, "", []); }
    d := Decide(e, ServerQuery(who, upstream, rpcMethod));
  }
}
