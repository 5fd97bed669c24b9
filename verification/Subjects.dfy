/**
 Who a rule or a tenant covers: selectors over a verified principal. Policy and tenancy share
 this one matcher.
 */
module Subjects {
  import opened Wrappers

  /** A decoded JSON value; numbers are exact. */
  datatype Json =
    | Null | Str(s: string) | Num(n: real) | Bool(b: bool)
    | Arr(items: seq<Json>) | Obj(fields: map<string, Json>)

  datatype Principal = Principal(subject: string, issuer: string, groups: seq<string>, scopes: seq<string>,
                                 claims: map<string, Json>)

  datatype Selector = Selector(issuers: seq<string>, claims: map<string, Json>, scopes: seq<string>,
                               subs: seq<string>, groups: seq<string>)

  /** claimEqual: the scalar shortcuts agree with equality of the decoded values. */
  function ClaimEqual(got: Json, want: Json): (r: bool)
    ensures r <==> got == want
  {
    match want
    case Str(w) => got.Str? && got.s == w
    case Num(w) => got.Num? && got.n == w
    case Bool(w) => got.Bool? && got.b == w
    case _ => got == want
  }

  // ---- what a selector means ----

  /** A claim that is an array answers for its elements and not for itself. */
  predicate ClaimHolds(claims: map<string, Json>, key: string, want: Json)
  {
    key in claims && if claims[key].Arr? then want in claims[key].items else claims[key] == want
  }

  predicate ClaimsHold(required: map<string, Json>, claims: map<string, Json>)
  {
    forall key :: key in required ==> ClaimHolds(claims, key, required[key])
  }

  predicate Overlap(xs: seq<string>, ys: seq<string>) { exists x :: x in xs && x in ys }

  /** Everything but scopes: the gates, and one identity when any is named. */
  predicate Suits(s: Selector, p: Principal)
  {
    && (s.issuers == [] || p.issuer in s.issuers)
    && ClaimsHold(s.claims, p.claims)
    && ((s.subs == [] && s.groups == []) || p.subject in s.subs || Overlap(s.groups, p.groups))
  }

  predicate HoldsAll(scopes: seq<string>, held: seq<string>) { forall x :: x in scopes ==> x in held }

  /** An empty selector, unlike an absent one, covers nobody. */
  predicate NamesSomething(s: Selector)
  {
    s.issuers != [] || s.claims != map[] || s.scopes != [] || s.subs != [] || s.groups != []
  }

  predicate Selects(s: Selector, p: Principal) { NamesSomething(s) && Suits(s, p) && HoldsAll(s.scopes, p.scopes) }

  predicate Covers(s: Option<Selector>, p: Option<Principal>) { s.None? || (p.Some? && Selects(s.value, p.value)) }

  /** The required scopes not held, in the order required. */
  function Lacking(required: seq<string>, held: seq<string>): seq<string>
  {
    if required == [] then []
    else
      var before := Lacking(required[..|required| - 1], held);
      var last := required[|required| - 1];
      if last in held then before else before + [last]
  }

  /** The scopes that are the only obstacle between the principal and the selector. */
  function Unmet(s: Option<Selector>, p: Option<Principal>): seq<string>
  {
    if s.Some? && p.Some? && Suits(s.value, p.value) then Lacking(s.value.scopes, p.value.scopes) else []
  }

  lemma {:induction false} LackingMembers(required: seq<string>, held: seq<string>)
    ensures forall x :: x in Lacking(required, held) <==> x in required && x !in held
  {
    if required != [] {
      var init, last := required[..|required| - 1], required[|required| - 1];
      LackingMembers(init, held);
      assert required == init + [last];
      forall x ensures x in required <==> x in init || x == last {}
    }
  }

  lemma LackingNone(required: seq<string>, held: seq<string>)
    ensures Lacking(required, held) == [] <==> HoldsAll(required, held)
  {
    LackingMembers(required, held);
    if Lacking(required, held) != [] { assert Lacking(required, held)[0] in Lacking(required, held); }
  }

  function WithScopes(p: Principal, more: seq<string>): Principal { p.(scopes := p.scopes + more) }

  lemma HoldsAllAfter(required: seq<string>, held: seq<string>, more: seq<string>)
    ensures HoldsAll(required, held + more) <==> HoldsAll(Lacking(required, held), more)
  {
    LackingMembers(required, held);
  }

  /** The unmet scopes are the exact remedy: a caller not covered becomes covered by further
      scopes exactly when there is an unmet one and all of them are among the further scopes. */
  lemma UnmetIsExactRemedy(s: Option<Selector>, p: Principal, more: seq<string>)
    requires !Covers(s, Some(p))
    ensures Covers(s, Some(WithScopes(p, more))) <==> Unmet(s, Some(p)) != [] && HoldsAll(Unmet(s, Some(p)), more)
  {
    HoldsAllAfter(s.value.scopes, p.scopes, more);
    LackingNone(s.value.scopes, p.scopes);
  }

  /** More scopes never lose a selector. */
  lemma MoreScopesKeepCover(s: Option<Selector>, p: Principal, more: seq<string>)
    requires Covers(s, Some(p))
    ensures Covers(s, Some(WithScopes(p, more)))
  {
  }

  // ---- array claims ----

  /** The matcher's description: the claim equals the value, or is an array that contains it. */
  predicate EqualsOrContains(claims: map<string, Json>, key: string, want: Json)
  {
    key in claims && (claims[key] == want || (claims[key].Arr? && want in claims[key].items))
  }

  /** Code and description agree exactly when the claim is not an array equal to the value. */
  lemma ArrayClaimExact(claims: map<string, Json>, key: string, want: Json)
    ensures (ClaimHolds(claims, key, want) <==> EqualsOrContains(claims, key, want)) <==>
            !(key in claims && claims[key].Arr? && claims[key] == want)
  {
    if want.Arr? { NotItsOwnItem(want); }
  }

  lemma NotItsOwnItem(v: Json)
    requires v.Arr?
    ensures v !in v.items
  {
    forall i | 0 <= i < |v.items| ensures v.items[i] != v {}
  }

  const TEAMS := Arr([Str("red"), Str("blue")])

  /** A token whose claim is the required array is not matched. */
  lemma EqualArrayIsRefused()
    ensures var claims := map["teams" := TEAMS];
            EqualsOrContains(claims, "teams", TEAMS) && !ClaimHolds(claims, "teams", TEAMS)
  {
    NotItsOwnItem(TEAMS);
  }

  // ---- the matcher ----

  method ClaimsMatch(required: map<string, Json>, claims: map<string, Json>) returns (ok: bool)
    ensures ok <==> ClaimsHold(required, claims)
  {
    var keys := required.Keys;
    while keys != {}
      invariant keys <= required.Keys
      invariant forall key :: key in required && key !in keys ==> ClaimHolds(claims, key, required[key])
    {
      var key :| key in keys;
      keys := keys - {key};
      if key !in claims { return false; }
      var got, want := claims[key], required[key];
      if got.Arr? {
        if !exists i :: 0 <= i < |got.items| && ClaimEqual(got.items[i], want) { return false; }
      } else if !ClaimEqual(got, want) {
        return false;
      }
    }
    return true;
  }

  method MissingScopes(required: seq<string>, held: seq<string>) returns (missing: seq<string>)
    ensures missing == Lacking(required, held)
  {
    missing := [];
    for i := 0 to |required|
      invariant missing == Lacking(required[..i], held)
    {
      assert required[..i + 1][..i] == required[..i];
      if required[i] !in held { missing := missing + [required[i]]; }
    }
    assert required[..|required|] == required;
  }

  /** subjectsMatchWhy. */
  method MatchWhy(s: Option<Selector>, p: Option<Principal>) returns (ok: bool, unmet: seq<string>)
    ensures ok <==> Covers(s, p)
    ensures unmet == Unmet(s, p)
  {
    if s.None? { return true, []; }
    if p.None? { return false, []; }
    var sel, who := s.value, p.value;
    if sel.issuers != [] && who.issuer !in sel.issuers { return false, []; }
    var claimed := ClaimsMatch(sel.claims, who.claims);
    if !claimed { return false, []; }
    var missing := MissingScopes(sel.scopes, who.scopes);
    LackingNone(sel.scopes, who.scopes);
    if sel.subs == [] && sel.groups == [] {
      if missing != [] { return false, missing; }
      return |sel.issuers| > 0 || |sel.claims| > 0 || |sel.scopes| > 0, [];
    }
    var identity := |sel.subs| > 0 && who.subject in sel.subs;
    if !identity && |sel.groups| > 0 {
      identity := AnyShared(sel.groups, who.groups);
    }
    if !identity { return false, []; }
    if missing != [] { return false, missing; }
    return true, [];
  }

  method AnyShared(groups: seq<string>, held: seq<string>) returns (shared: bool)
    ensures shared <==> Overlap(groups, held)
  {
    for i := 0 to |groups|
      invariant forall j :: 0 <= j < i ==> groups[j] !in held
    {
      if groups[i] in held { return true; }
    }
    return false;
  }

  method MatchSubjects(s: Option<Selector>, p: Option<Principal>) returns (ok: bool)
    ensures ok <==> Covers(s, p)
  {
    var unmet;
    ok, unmet := MatchWhy(s, p);
  }
}
