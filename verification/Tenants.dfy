/**
 Tenant resolution: selectors of one dimension are found through indexes, all others by a
 scan, and the answer is that of matching every tenant in turn.
 */
module Tenants {
  import opened Wrappers
  import opened Subjects
  import opened Sequences
  import Ordering

  datatype TenantConfig = TenantConfig(id: string, subjects: Option<Selector>)

  /** handle tells tenants apart as their addresses do; it is the place in the document. */
  datatype Tenant = Tenant(handle: nat, id: string, subjects: Option<Selector>)

  datatype Resolution = NoTenant | Resolved(tenant: Tenant) | Ambiguous(subject: string, ids: seq<string>)

  // ---- matching every tenant ----

  function Declared(cfg: seq<TenantConfig>): (all: seq<Tenant>)
    ensures |all| == |cfg| && forall i :: 0 <= i < |all| ==> all[i].handle == i
  {
    seq(|cfg|, i requires 0 <= i < |cfg| => Tenant(i, cfg[i].id, cfg[i].subjects))
  }

  function Matching(all: seq<Tenant>, p: Principal): seq<Tenant>
  {
    if all == [] then []
    else
      var before := Matching(all[..|all| - 1], p);
      if Covers(all[|all| - 1].subjects, Some(p)) then before + [all[|all| - 1]] else before
  }

  function Ids(ts: seq<Tenant>): (ids: seq<string>)
    ensures |ids| == |ts| && forall i :: 0 <= i < |ts| ==> ids[i] == ts[i].id
  {
    seq(|ts|, i requires 0 <= i < |ts| => ts[i].id)
  }

  function Itself(id: string): string { id }

  /** The verdict on a list of matches without repeats. */
  function Verdict(p: Principal, matches: seq<Tenant>): Resolution
  {
    if matches == [] then NoTenant
    else if |matches| == 1 then Resolved(matches[0])
    else Ambiguous(p.subject, Ordering.SortBy(Ids(matches), Itself))
  }

  function ResolveByScan(all: seq<Tenant>, p: Option<Principal>): Resolution
  {
    if p.None? then NoTenant else Verdict(p.value, Matching(all, p.value))
  }

  // ---- lists without repeats ----

  ghost predicate NoRepeats(ts: seq<Tenant>) { forall i, j :: 0 <= i < j < |ts| ==> ts[i] != ts[j] }

  ghost predicate SameTenants(xs: seq<Tenant>, ys: seq<Tenant>) { forall t :: t in xs <==> t in ys }

  lemma {:induction false} MatchingMembers(all: seq<Tenant>, p: Principal)
    ensures forall t :: t in Matching(all, p) <==> t in all && Covers(t.subjects, Some(p))
    ensures NoRepeats(all) ==> NoRepeats(Matching(all, p))
  {
    if all != [] {
      var init, last := all[..|all| - 1], all[|all| - 1];
      MatchingMembers(init, p);
      assert all == init + [last];
    }
  }

  function Without(ts: seq<Tenant>, k: nat): seq<Tenant>
    requires k < |ts|
  {
    ts[..k] + ts[k + 1..]
  }

  lemma IdsConcat(xs: seq<Tenant>, ys: seq<Tenant>)
    ensures Ids(xs + ys) == Ids(xs) + Ids(ys)
  {
  }

  lemma InsertedId(a: seq<string>, x: string, b: seq<string>)
    ensures multiset(a + ([x] + b)) == multiset(a + b) + multiset{x}
  {
  }

  lemma IdsInsert(front: seq<Tenant>, t: Tenant, back: seq<Tenant>)
    ensures multiset(Ids(front + ([t] + back))) == multiset(Ids(front + back)) + multiset{t.id}
  {
    IdsConcat(front, [t] + back);
    IdsConcat([t], back);
    IdsConcat(front, back);
    InsertedId(Ids(front), t.id, Ids(back));
  }

  lemma IdsWithout(ts: seq<Tenant>, k: nat)
    requires k < |ts|
    ensures multiset(Ids(ts)) == multiset(Ids(Without(ts, k))) + multiset{ts[k].id}
  {
    SplitAt(ts, k);
    IdsInsert(ts[..k], ts[k], ts[k + 1..]);
  }

  lemma WithoutFirst(ts: seq<Tenant>)
    requires ts != []
    ensures multiset(Ids(ts)) == multiset(Ids(ts[1..])) + multiset{ts[0].id}
  {
    assert Without(ts, 0) == ts[1..];
    IdsWithout(ts, 0);
  }

  lemma RemoveBoth(xs: seq<Tenant>, ys: seq<Tenant>, k: nat)
    requires NoRepeats(xs) && NoRepeats(ys) && SameTenants(xs, ys)
    requires xs != [] && k < |ys| && ys[k] == xs[0]
    ensures NoRepeats(xs[1..]) && NoRepeats(Without(ys, k)) && SameTenants(xs[1..], Without(ys, k))
  {
    var rest := Without(ys, k);
    forall t ensures t in rest <==> t in ys && t != ys[k] {
      if t in ys && t != ys[k] {
        var j :| 0 <= j < |ys| && ys[j] == t;
        assert rest[if j < k then j else j - 1] == t;
      }
    }
    forall t ensures t in xs[1..] <==> t in xs && t != xs[0] {}
  }

  lemma {:induction false} SameIds(xs: seq<Tenant>, ys: seq<Tenant>)
    requires NoRepeats(xs) && NoRepeats(ys) && SameTenants(xs, ys)
    ensures |xs| == |ys| && multiset(Ids(xs)) == multiset(Ids(ys))
  {
    assert ys != [] ==> ys[0] in ys;
    if xs != [] {
      assert xs[0] in ys;
      var k :| 0 <= k < |ys| && ys[k] == xs[0];
      RemoveBoth(xs, ys, k);
      SameIds(xs[1..], Without(ys, k));
      IdsWithout(ys, k);
      WithoutFirst(xs);
    } else {
      assert ys == xs;
    }
  }

  /** The verdict depends only on which tenants match. */
  lemma VerdictIgnoresOrder(p: Principal, xs: seq<Tenant>, ys: seq<Tenant>)
    requires NoRepeats(xs) && NoRepeats(ys) && SameTenants(xs, ys)
    ensures Verdict(p, xs) == Verdict(p, ys)
  {
    SameIds(xs, ys);
    if |xs| == 1 { assert xs[0] in ys; }
    Ordering.SortIgnoresOrder(Ids(xs), Ids(ys), Itself);
  }

  ghost predicate Belongs(t: Tenant, all: seq<Tenant>, p: Principal) { t in all && Covers(t.subjects, Some(p)) }

  lemma IdsMembers(ts: seq<Tenant>, x: string)
    ensures x in Ids(ts) <==> exists t :: t in ts && t.id == x
  {
    if t :| t in ts && t.id == x {
      var i :| 0 <= i < |ts| && ts[i] == t;
      assert Ids(ts)[i] == x;
    }
  }

  lemma VerdictOnMembers(p: Principal, m: seq<Tenant>)
    requires NoRepeats(m)
    ensures Verdict(p, m).NoTenant? <==> forall t :: t !in m
    ensures forall t :: Verdict(p, m) == Resolved(t) <==> t in m && forall u :: u in m ==> u == t
  {
    OnlyMember(m);
  }

  lemma MatchingBelong(cfg: seq<TenantConfig>, p: Principal)
    ensures var m := Matching(Declared(cfg), p);
            NoRepeats(m) && forall t :: t in m <==> Belongs(t, Declared(cfg), p)
  {
    MatchingMembers(Declared(cfg), p);
  }

  /** No tenant exactly when none matches, and a tenant exactly when it alone does. */
  lemma ScanMeans(cfg: seq<TenantConfig>, p: Principal)
    ensures var all := Declared(cfg);
            var r := ResolveByScan(all, Some(p));
            && (r.NoTenant? <==> forall t :: !Belongs(t, all, p))
            && (forall t :: r == Resolved(t) <==> Belongs(t, all, p) && forall u :: Belongs(u, all, p) ==> u == t)
  {
    MatchingBelong(cfg, p);
    VerdictOnMembers(p, Matching(Declared(cfg), p));
  }

  /** A refusal names, in sorted order, the ids of exactly the tenants that match. */
  lemma RefusalNamesAll(cfg: seq<TenantConfig>, p: Principal)
    requires ResolveByScan(Declared(cfg), Some(p)).Ambiguous?
    ensures var all := Declared(cfg);
            var ids := ResolveByScan(all, Some(p)).ids;
            && |ids| >= 2 && Ordering.SortedBy(ids, Itself)
            && forall x :: x in ids <==> exists t :: Belongs(t, all, p) && t.id == x
  {
    var m := Matching(Declared(cfg), p);
    MatchingBelong(cfg, p);
    SortedIds(m);
    Ordering.SameMembers(Ordering.SortBy(Ids(m), Itself), Ids(m));
  }

  lemma OnlyMember(m: seq<Tenant>)
    requires NoRepeats(m)
    ensures m == [] <==> forall t :: t !in m
    ensures forall t :: |m| == 1 && m[0] == t <==> t in m && forall u :: u in m ==> u == t
  {
    if |m| > 0 { assert m[0] in m; }
    if |m| > 1 { assert m[1] in m && m[0] != m[1]; }
  }

  lemma SortedIds(m: seq<Tenant>)
    ensures var ids := Ordering.SortBy(Ids(m), Itself);
            Ordering.SortedBy(ids, Itself) && forall x :: x in ids <==> exists t :: t in m && t.id == x
  {
    var ids := Ordering.SortBy(Ids(m), Itself);
    Ordering.SortBySorts(Ids(m), Itself);
    Ordering.SameMembers(ids, Ids(m));
    forall x ensures x in Ids(m) <==> exists t :: t in m && t.id == x { IdsMembers(m, x); }
  }

  // ---- what may be indexed ----

  predicate Scalar(v: Json) { v.Str? || v.Num? || v.Bool? }

  ghost predicate ClaimOnly(s: Option<Selector>, key: string, val: Json)
  {
    && s.Some? && s.value.claims == map[key := val] && Scalar(val)
    && s.value.issuers == [] && s.value.subs == [] && s.value.groups == [] && s.value.scopes == []
  }

  predicate GroupsOnly(s: Option<Selector>)
  {
    && s.Some? && s.value.groups != [] && s.value.claims == map[]
    && s.value.issuers == [] && s.value.subs == [] && s.value.scopes == []
  }

  predicate ScopeOnly(s: Option<Selector>)
  {
    && s.Some? && |s.value.scopes| == 1 && s.value.claims == map[]
    && s.value.issuers == [] && s.value.subs == [] && s.value.groups == []
  }

  ghost predicate ClaimIndexed(s: Option<Selector>) { exists key, val :: ClaimOnly(s, key, val) }

  lemma OneEntry(m: map<string, Json>, key: string)
    requires key in m && |m| == 1
    ensures m == map[key := m[key]]
  {
    var rest := m.Keys - {key};
    assert m.Keys == rest + {key};
    assert |m.Keys| == 1 && rest == {};
  }

  lemma NotScalarNotIndexed(s: Option<Selector>, key: string, val: Json)
    requires s.Some? && s.value.claims == map[key := val] && !Scalar(val)
    ensures !ClaimIndexed(s)
  {
    var m := map[key := val];
    forall k, v | m == map[k := v] ensures v == val { assert k in m && m[k] == v; }
  }

  /** indexableClaim. */
  method IndexableClaim(s: Option<Selector>) returns (r: Option<(string, Json)>)
    ensures r.Some? ==> ClaimOnly(s, r.value.0, r.value.1)
    ensures r.None? ==> !ClaimIndexed(s)
  {
    if s.None? { return None; }
    var c := s.value;
    if |c.claims| != 1 || |c.issuers| > 0 || |c.subs| > 0 || |c.groups| > 0 || |c.scopes| > 0 { return None; }
    assert c.claims.Keys != {};
    var key :| key in c.claims;
    OneEntry(c.claims, key);
    var val := c.claims[key];
    if Scalar(val) { return Some((key, val)); }
    NotScalarNotIndexed(s, key, val);
    return None;
  }

  /** Only scalars are ever looked up; None stands for a key that is in no bucket. */
  function IndexKey(v: Json): Option<Json> { if Scalar(v) then Some(v) else None }

  // ---- index buckets ----

  type Buckets = map<string, seq<Tenant>>
  type ClaimBuckets = map<string, map<Json, seq<Tenant>>>

  function Bucket(m: Buckets, k: string): seq<Tenant> { if k in m then m[k] else [] }

  function ValueBucket(m: map<Json, seq<Tenant>>, key: Option<Json>): seq<Tenant>
  {
    if key.Some? && key.value in m then m[key.value] else []
  }

  function ClaimBucket(m: ClaimBuckets, key: string, v: Json): seq<Tenant>
  {
    if key in m then ValueBucket(m[key], Some(v)) else []
  }

  ghost predicate ClaimsSound(m: ClaimBuckets, all: seq<Tenant>)
  {
    forall key, v, t :: t in ClaimBucket(m, key, v) ==> t in all
  }

  ghost predicate BucketsSound(m: Buckets, all: seq<Tenant>) { forall k, t :: t in Bucket(m, k) ==> t in all }

  ghost predicate ClaimFiled(m: ClaimBuckets, t: Tenant)
  {
    forall key, val :: ClaimOnly(t.subjects, key, val) ==> t in ClaimBucket(m, key, val)
  }

  ghost predicate GroupsFiled(m: Buckets, t: Tenant)
  {
    GroupsOnly(t.subjects) ==> forall g :: g in t.subjects.value.groups ==> t in Bucket(m, g)
  }

  ghost predicate ScopeFiled(m: Buckets, t: Tenant)
  {
    ScopeOnly(t.subjects) ==> t in Bucket(m, t.subjects.value.scopes[0])
  }

  ghost predicate ScanFiled(scan: seq<Tenant>, t: Tenant)
  {
    !ClaimIndexed(t.subjects) && !GroupsOnly(t.subjects) && !ScopeOnly(t.subjects) ==> t in scan
  }

  function FileClaim(m: ClaimBuckets, key: string, val: Json, t: Tenant): ClaimBuckets
  {
    var byValue := if key in m then m[key] else map[];
    m[key := byValue[val := ValueBucket(byValue, Some(val)) + [t]]]
  }

  function FileUnder(m: Buckets, k: string, t: Tenant): Buckets { m[k := Bucket(m, k) + [t]] }

  lemma ClaimBucketAfter(m: ClaimBuckets, key: string, val: Json, t: Tenant, k: string, v: Json)
    ensures ClaimBucket(FileClaim(m, key, val, t), k, v) ==
            ClaimBucket(m, k, v) + (if k == key && v == val then [t] else [])
  {
  }

  lemma BucketAfter(m: Buckets, key: string, t: Tenant, k: string)
    ensures Bucket(FileUnder(m, key, t), k) == Bucket(m, k) + (if k == key then [t] else [])
  {
  }

  // ---- the accumulated matches ----

  datatype Found = Found(found: Option<Tenant>, also: seq<Tenant>)

  function Members(f: Found): seq<Tenant> { if f.found.None? then [] else [f.found.value] + f.also }

  /** considerTenant: a tenant reached again is not a second match. */
  function Consider(t: Tenant, f: Found): (f': Found)
    requires f.found.None? ==> f.also == []
    ensures f'.found.None? ==> f'.also == []
    ensures Members(f') == if t in Members(f) then Members(f) else Members(f) + [t]
  {
    if f.found.None? then Found(Some(t), f.also)
    else if f.found.value == t || t in f.also then f
    else Found(f.found, f.also + [t])
  }

  /** Only declared tenants that match, none twice. */
  ghost predicate Honest(f: Found, all: seq<Tenant>, p: Principal)
  {
    && (f.found.None? ==> f.also == []) && NoRepeats(Members(f))
    && forall t :: t in Members(f) ==> t in all && Covers(t.subjects, Some(p))
  }

  /** Every match among the candidates is recorded. */
  ghost predicate Recorded(ts: seq<Tenant>, f: Found, p: Principal)
  {
    forall t :: t in ts && Covers(t.subjects, Some(p)) ==> t in Members(f)
  }

  lemma ConsiderKeepsHonest(t: Tenant, f: Found, all: seq<Tenant>, p: Principal)
    requires Honest(f, all, p) && t in all && Covers(t.subjects, Some(p))
    ensures Honest(Consider(t, f), all, p)
  {
  }

  /** Puts one candidate to the matcher. */
  method ConsiderOne(t: Tenant, p: Principal, f: Found, ghost all: seq<Tenant>) returns (f': Found)
    requires Honest(f, all, p) && t in all
    ensures Honest(f', all, p) && Members(f) <= Members(f') && (Covers(t.subjects, Some(p)) ==> t in Members(f'))
  {
    var ok := MatchSubjects(t.subjects, Some(p));
    if !ok { return f; }
    ConsiderKeepsHonest(t, f, all, p);
    f' := Consider(t, f);
  }

  lemma RecordedNext(ts: seq<Tenant>, i: nat, f: Found, f': Found, p: Principal)
    requires i < |ts| && Recorded(ts[..i], f, p) && Members(f) <= Members(f')
    requires Covers(ts[i].subjects, Some(p)) ==> ts[i] in Members(f')
    ensures Recorded(ts[..i + 1], f', p)
  {
    RecordedLater(ts[..i], f, f', p);
    assert ts[..i + 1] == ts[..i] + [ts[i]];
  }

  /** considerTenants: the matcher confirms every candidate. */
  method ConsiderTenants(candidates: seq<Tenant>, p: Principal, f: Found, ghost all: seq<Tenant>) returns (f': Found)
    requires Honest(f, all, p) && forall t :: t in candidates ==> t in all
    ensures Honest(f', all, p) && Members(f) <= Members(f') && Recorded(candidates, f', p)
  {
    f' := f;
    for i := 0 to |candidates|
      invariant Honest(f', all, p) && Members(f) <= Members(f') && Recorded(candidates[..i], f', p)
    {
      var g := ConsiderOne(candidates[i], p, f', all);
      RecordedNext(candidates, i, f', g, p);
      f' := g;
    }
    assert candidates[..|candidates|] == candidates;
  }

  lemma RecordedLater(ts: seq<Tenant>, f: Found, f': Found, p: Principal)
    requires Recorded(ts, f, p) && Members(f) <= Members(f')
    ensures Recorded(ts, f', p)
  {
    forall t | t in ts && Covers(t.subjects, Some(p)) ensures t in Members(f') {
      var i :| 0 <= i < |Members(f)| && Members(f)[i] == t;
      assert Members(f')[i] == t;
    }
  }

  /** The claim, or an element of it when it is an array, has this value. */
  ghost predicate Presents(p: Principal, key: string, v: Json)
  {
    Scalar(v) && ClaimHolds(p.claims, key, v)
  }

  ghost predicate ClaimRecorded(m: ClaimBuckets, key: string, f: Found, p: Principal)
  {
    forall v :: Presents(p, key, v) ==> Recorded(ClaimBucket(m, key, v), f, p)
  }

  lemma ClaimRecordedLater(m: ClaimBuckets, key: string, f: Found, f': Found, p: Principal)
    requires ClaimRecorded(m, key, f, p) && Members(f) <= Members(f')
    ensures ClaimRecorded(m, key, f', p)
  {
    forall v | Presents(p, key, v) ensures Recorded(ClaimBucket(m, key, v), f', p) {
      RecordedLater(ClaimBucket(m, key, v), f, f', p);
    }
  }

  /** One claim value put to the index. */
  method ConsiderValue(m: ClaimBuckets, key: string, v: Json, p: Principal, f: Found, ghost all: seq<Tenant>)
    returns (f': Found)
    requires Honest(f, all, p) && key in m && ClaimsSound(m, all)
    ensures Honest(f', all, p) && Members(f) <= Members(f')
    ensures Scalar(v) ==> Recorded(ClaimBucket(m, key, v), f', p)
  {
    var candidates := ValueBucket(m[key], IndexKey(v));
    assert candidates == if Scalar(v) then ClaimBucket(m, key, v) else [];
    f' := ConsiderTenants(candidates, p, f, all);
  }

  ghost predicate ItemsRecorded(m: ClaimBuckets, key: string, items: seq<Json>, f: Found, p: Principal)
  {
    forall v :: v in items && Scalar(v) ==> Recorded(ClaimBucket(m, key, v), f, p)
  }

  lemma ItemsRecordedNext(m: ClaimBuckets, key: string, items: seq<Json>, i: nat, f: Found, f': Found, p: Principal)
    requires i < |items| && ItemsRecorded(m, key, items[..i], f, p) && Members(f) <= Members(f')
    requires Scalar(items[i]) ==> Recorded(ClaimBucket(m, key, items[i]), f', p)
    ensures ItemsRecorded(m, key, items[..i + 1], f', p)
  {
    forall w | w in items[..i] && Scalar(w) ensures Recorded(ClaimBucket(m, key, w), f', p) {
      RecordedLater(ClaimBucket(m, key, w), f, f', p);
    }
    assert items[..i + 1] == items[..i] + [items[i]];
  }

  method ConsiderItems(m: ClaimBuckets, key: string, items: seq<Json>, p: Principal, f: Found, ghost all: seq<Tenant>)
    returns (f': Found)
    requires Honest(f, all, p) && key in m && ClaimsSound(m, all)
    ensures Honest(f', all, p) && Members(f) <= Members(f') && ItemsRecorded(m, key, items, f', p)
  {
    f' := f;
    for i := 0 to |items|
      invariant Honest(f', all, p) && Members(f) <= Members(f') && ItemsRecorded(m, key, items[..i], f', p)
    {
      var g := ConsiderValue(m, key, items[i], p, f', all);
      ItemsRecordedNext(m, key, items, i, f', g, p);
      f' := g;
    }
    assert items[..|items|] == items;
  }

  /** One indexed claim name: every element of an array claim is a lookup. */
  method ConsiderClaim(m: ClaimBuckets, key: string, p: Principal, f: Found, ghost all: seq<Tenant>) returns (f': Found)
    requires Honest(f, all, p) && key in m && ClaimsSound(m, all)
    ensures Honest(f', all, p) && Members(f) <= Members(f') && ClaimRecorded(m, key, f', p)
  {
    f' := f;
    if key !in p.claims { return; }
    var got := p.claims[key];
    if !got.Arr? {
      f' := ConsiderValue(m, key, got, p, f, all);
      return;
    }
    f' := ConsiderItems(m, key, got.items, p, f, all);
  }

  /** All indexed claim names, in whatever order the map yields them. */
  method ConsiderClaims(m: ClaimBuckets, p: Principal, f: Found, ghost all: seq<Tenant>) returns (f': Found)
    requires Honest(f, all, p) && ClaimsSound(m, all)
    ensures Honest(f', all, p) && Members(f) <= Members(f') && forall key :: key in m ==> ClaimRecorded(m, key, f', p)
  {
    f' := f;
    var todo := m.Keys;
    while todo != {}
      invariant todo <= m.Keys
      invariant Honest(f', all, p) && Members(f) <= Members(f')
      invariant forall key :: key in m && key !in todo ==> ClaimRecorded(m, key, f', p)
    {
      var key :| key in todo;
      todo := todo - {key};
      var g := ConsiderClaim(m, key, p, f', all);
      forall k | k in m && k !in todo ensures ClaimRecorded(m, k, g, p) {
        if k != key { ClaimRecordedLater(m, k, f', g, p); }
      }
      f' := g;
    }
  }

  ghost predicate KeysRecorded(m: Buckets, keys: seq<string>, f: Found, p: Principal)
  {
    forall k :: k in keys ==> Recorded(Bucket(m, k), f, p)
  }

  lemma KeysRecordedLater(m: Buckets, keys: seq<string>, f: Found, f': Found, p: Principal)
    requires KeysRecorded(m, keys, f, p) && Members(f) <= Members(f')
    ensures KeysRecorded(m, keys, f', p)
  {
    forall k | k in keys ensures Recorded(Bucket(m, k), f', p) { RecordedLater(Bucket(m, k), f, f', p); }
  }

  lemma KeysRecordedNext(m: Buckets, keys: seq<string>, i: nat, f: Found, f': Found, p: Principal)
    requires i < |keys| && KeysRecorded(m, keys[..i], f, p) && Members(f) <= Members(f')
    requires Recorded(Bucket(m, keys[i]), f', p)
    ensures KeysRecorded(m, keys[..i + 1], f', p)
  {
    KeysRecordedLater(m, keys[..i], f, f', p);
    assert keys[..i + 1] == keys[..i] + [keys[i]];
  }

  /** The principal's groups, or scopes, put to their index. */
  method ConsiderKeys(m: Buckets, keys: seq<string>, p: Principal, f: Found, ghost all: seq<Tenant>) returns (f': Found)
    requires Honest(f, all, p) && BucketsSound(m, all)
    ensures Honest(f', all, p) && Members(f) <= Members(f') && KeysRecorded(m, keys, f', p)
  {
    f' := f;
    for i := 0 to |keys|
      invariant Honest(f', all, p) && Members(f) <= Members(f') && KeysRecorded(m, keys[..i], f', p)
    {
      var g := ConsiderTenants(Bucket(m, keys[i]), p, f', all);
      KeysRecordedNext(m, keys, i, f', g, p);
      f' := g;
    }
    assert keys[..|keys|] == keys;
  }

  /** What each lookup stage leaves recorded. */
  ghost predicate AllStages(byClaim: ClaimBuckets, byGroup: Buckets, byScope: Buckets, scan: seq<Tenant>,
                            f: Found, p: Principal)
  {
    && (forall key :: key in byClaim ==> ClaimRecorded(byClaim, key, f, p))
    && KeysRecorded(byGroup, p.groups, f, p)
    && KeysRecorded(byScope, p.scopes, f, p)
    && Recorded(scan, f, p)
  }

  /** A filed tenant that matches is reached by the stage its selector belongs to. */
  lemma MatchIsReached(byClaim: ClaimBuckets, byGroup: Buckets, byScope: Buckets, scan: seq<Tenant>,
                       f: Found, p: Principal, t: Tenant)
    requires AllStages(byClaim, byGroup, byScope, scan, f, p)
    requires ClaimFiled(byClaim, t) && GroupsFiled(byGroup, t) && ScopeFiled(byScope, t) && ScanFiled(scan, t)
    requires Covers(t.subjects, Some(p))
    ensures t in Members(f)
  {
    var s := t.subjects;
    if ClaimIndexed(s) {
      var key, val :| ClaimOnly(s, key, val);
      assert key in s.value.claims && s.value.claims[key] == val;
      assert Presents(p, key, val);
      assert ClaimRecorded(byClaim, key, f, p);
    } else if GroupsOnly(s) {
      var g :| g in s.value.groups && g in p.groups;
    } else if ScopeOnly(s) {
      assert s.value.scopes[0] in s.value.scopes;
    }
  }

  /** Refuses when more than one tenant was found, naming them all. */
  method Conclude(p: Principal, f: Found) returns (r: Resolution)
    requires f.found.None? ==> f.also == []
    ensures r == Verdict(p, Members(f))
  {
    if f.found.None? { return NoTenant; }
    if |f.also| == 0 { return Resolved(f.found.value); }
    var ids := [f.found.value.id];
    for i := 0 to |f.also|
      invariant ids == [f.found.value.id] + Ids(f.also[..i])
    {
      IdsConcat(f.also[..i], [f.also[i]]);
      assert f.also[..i + 1] == f.also[..i] + [f.also[i]];
      ids := ids + [f.also[i].id];
    }
    assert f.also[..|f.also|] == f.also;
    IdsConcat([f.found.value], f.also);
    return Ambiguous(p.subject, Ordering.SortBy(ids, Itself));
  }

  // ---- the tenant set of a snapshot ----

  class TenantSet {
    var byClaim: ClaimBuckets
    var byGroup: Buckets
    var byScope: Buckets
    var scan: seq<Tenant>
    var total: nat
    ghost var all: seq<Tenant>

    ghost predicate Sound()
      reads this
    {
      && ClaimsSound(byClaim, all) && BucketsSound(byGroup, all) && BucketsSound(byScope, all)
      && forall t :: t in scan ==> t in all
    }

    ghost predicate Filed(t: Tenant)
      reads this
    {
      ClaimFiled(byClaim, t) && GroupsFiled(byGroup, t) && ScopeFiled(byScope, t) && ScanFiled(scan, t)
    }

    ghost predicate Valid()
      reads this
    {
      && total == |all| && (forall i :: 0 <= i < |all| ==> all[i].handle == i)
      && Sound() && forall t :: t in all ==> Filed(t)
    }

    constructor ()
      ensures Valid() && all == []
    {
      byClaim, byGroup, byScope, scan, total, all := map[], map[], map[], [], 0, [];
    }

    /** Every tenant is filed where the stages of resolution look for it. */
    method Index(t: Tenant)
      requires Sound() && t in all
      requires forall u :: u in all && u != t ==> Filed(u)
      modifies this`byClaim, this`byGroup, this`byScope, this`scan
      ensures Sound() && forall u :: u in all ==> Filed(u)
    {
      var s := t.subjects;
      var claim := IndexableClaim(s);
      if claim.Some? {
        IndexClaim(t, claim.value.0, claim.value.1);
      } else if GroupsOnly(s) {
        IndexGroups(t);
      } else if ScopeOnly(s) {
        IndexScope(t);
      } else {
        scan := scan + [t];
      }
    }

    method IndexClaim(t: Tenant, key: string, val: Json)
      requires Sound() && t in all && ClaimOnly(t.subjects, key, val)
      requires forall u :: u in all && u != t ==> Filed(u)
      modifies this`byClaim
      ensures Sound() && forall u :: u in all ==> Filed(u)
    {
      ClaimFilingGrows(byClaim, key, val, t, all);
      ClaimOnlyIsOneKey(t.subjects, key, val);
      byClaim := FileClaim(byClaim, key, val, t);
    }

    method IndexGroups(t: Tenant)
      requires Sound() && t in all && GroupsOnly(t.subjects)
      requires forall u :: u in all && u != t ==> Filed(u)
      modifies this`byGroup
      ensures Sound() && forall u :: u in all ==> Filed(u)
    {
      var groups := t.subjects.value.groups;
      for i := 0 to |groups|
        invariant BucketsSound(byGroup, all) && BucketsGrow(old(byGroup), byGroup)
        invariant forall j :: 0 <= j < i ==> t in Bucket(byGroup, groups[j])
      {
        FilingGrows(byGroup, groups[i], t, all);
        byGroup := FileUnder(byGroup, groups[i], t);
      }
    }

    method IndexScope(t: Tenant)
      requires Sound() && t in all && ScopeOnly(t.subjects)
      requires forall u :: u in all && u != t ==> Filed(u)
      modifies this`byScope
      ensures Sound() && forall u :: u in all ==> Filed(u)
    {
      FilingGrows(byScope, t.subjects.value.scopes[0], t, all);
      byScope := FileUnder(byScope, t.subjects.value.scopes[0], t);
    }

    /** One more declaration. */
    method Add(c: TenantConfig)
      requires Valid()
      modifies this
      ensures Valid() && all == old(all) + [Tenant(|old(all)|, c.id, c.subjects)]
    {
      var t := Tenant(total, c.id, c.subjects);
      total := total + 1;
      SoundGrows(byClaim, byGroup, byScope, scan, all, t);
      all := all + [t];
      Index(t);
    }

    /** Indexed resolution gives the answer of matching every declared tenant in turn. */
    method Resolve(who: Option<Principal>) returns (r: Resolution)
      requires Valid()
      ensures r == ResolveByScan(all, who)
    {
      if total == 0 || who.None? { return NoTenant; }
      var p := who.value;
      var f := Lookup(p);
      MatchingMembers(all, p);
      VerdictIgnoresOrder(p, Members(f), Matching(all, p));
      r := Conclude(p, f);
    }

    /** The lookup stages together find exactly the matching tenants. */
    method Lookup(p: Principal) returns (f: Found)
      requires Valid()
      ensures Honest(f, all, p) && Recorded(all, f, p)
    {
      f := ConsiderClaims(byClaim, p, Found(None, []), all);
      var g := ConsiderKeys(byGroup, p.groups, p, f, all);
      var h := ConsiderKeys(byScope, p.scopes, p, g, all);
      var k := ConsiderTenants(scan, p, h, all);
      StagesCompose(byClaim, byGroup, byScope, scan, p, f, g, h, k);
      forall t | t in all && Covers(t.subjects, Some(p)) ensures t in Members(k) {
        assert Filed(t);
        MatchIsReached(byClaim, byGroup, byScope, scan, k, p, t);
      }
      f := k;
    }
  }

  /** buildTenants, as far as resolution is concerned. */
  method BuildTenants(cfg: seq<TenantConfig>) returns (ts: TenantSet)
    ensures ts.Valid() && ts.all == Declared(cfg)
  {
    ts := new TenantSet();
    for i := 0 to |cfg|
      invariant ts.Valid() && fresh(ts) && ts.all == Declared(cfg[..i])
    {
      ts.Add(cfg[i]);
      assert cfg[..i + 1] == cfg[..i] + [cfg[i]];
    }
    assert cfg[..|cfg|] == cfg;
  }

  // ---- filing ----

  ghost predicate BucketsGrow(m: Buckets, m': Buckets) { forall k, t :: t in Bucket(m, k) ==> t in Bucket(m', k) }

  lemma FilingGrows(m: Buckets, k: string, t: Tenant, all: seq<Tenant>)
    requires BucketsSound(m, all) && t in all
    ensures BucketsSound(FileUnder(m, k, t), all) && BucketsGrow(m, FileUnder(m, k, t))
    ensures t in Bucket(FileUnder(m, k, t), k)
  {
    forall j ensures Bucket(FileUnder(m, k, t), j) == Bucket(m, j) + (if j == k then [t] else []) {
      BucketAfter(m, k, t, j);
    }
  }

  lemma ClaimFilingGrows(m: ClaimBuckets, key: string, val: Json, t: Tenant, all: seq<Tenant>)
    requires ClaimsSound(m, all) && t in all
    ensures ClaimsSound(FileClaim(m, key, val, t), all) && t in ClaimBucket(FileClaim(m, key, val, t), key, val)
    ensures forall u :: ClaimFiled(m, u) ==> ClaimFiled(FileClaim(m, key, val, t), u)
  {
    var m' := FileClaim(m, key, val, t);
    forall k, v ensures ClaimBucket(m', k, v) == ClaimBucket(m, k, v) + (if k == key && v == val then [t] else []) {
      ClaimBucketAfter(m, key, val, t, k, v);
    }
  }

  lemma ClaimOnlyIsOneKey(s: Option<Selector>, key: string, val: Json)
    requires ClaimOnly(s, key, val)
    ensures forall k, v :: ClaimOnly(s, k, v) ==> k == key && v == val
  {
    var m := s.value.claims;
    forall k, v | ClaimOnly(s, k, v) ensures k == key && v == val { assert k in m && m[k] == v; }
  }

  lemma SoundGrows(byClaim: ClaimBuckets, byGroup: Buckets, byScope: Buckets, scan: seq<Tenant>,
                   all: seq<Tenant>, t: Tenant)
    requires ClaimsSound(byClaim, all) && BucketsSound(byGroup, all) && BucketsSound(byScope, all)
    requires forall u :: u in scan ==> u in all
    ensures ClaimsSound(byClaim, all + [t]) && BucketsSound(byGroup, all + [t]) && BucketsSound(byScope, all + [t])
    ensures forall u :: u in scan ==> u in all + [t]
  {
  }

  lemma StagesCompose(byClaim: ClaimBuckets, byGroup: Buckets, byScope: Buckets, scan: seq<Tenant>, p: Principal,
                      f: Found, g: Found, h: Found, k: Found)
    requires Members(f) <= Members(g) <= Members(h) <= Members(k)
    requires forall key :: key in byClaim ==> ClaimRecorded(byClaim, key, f, p)
    requires KeysRecorded(byGroup, p.groups, g, p)
    requires KeysRecorded(byScope, p.scopes, h, p)
    requires Recorded(scan, k, p)
    ensures AllStages(byClaim, byGroup, byScope, scan, k, p)
  {
    forall key | key in byClaim ensures ClaimRecorded(byClaim, key, k, p) { ClaimRecordedLater(byClaim, key, f, k, p); }
    KeysRecordedLater(byGroup, p.groups, g, k, p);
    KeysRecordedLater(byScope, p.scopes, h, k, p);
  }
}
