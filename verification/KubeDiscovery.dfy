/**
 Identities of upstreams discovered from Kubernetes Services. An id carries its Kubernetes
 namespace, hyphens doubled on both sides of a single separating hyphen.
 */
module KubeDiscovery {
  import opened Wrappers
  import opened Ordering
  import opened Sequences

  const HYPHEN := '-'

  /** escapeHyphens. */
  function Escape(s: string): string
  {
    if s == [] then []
    else (if s[0] == HYPHEN then [HYPHEN, HYPHEN] else [s[0]]) + Escape(s[1..])
  }

  /** Hyphens come in pairs. */
  predicate Paired(s: string)
  {
    if s == [] then true
    else if s[0] != HYPHEN then Paired(s[1..])
    else |s| >= 2 && s[1] == HYPHEN && Paired(s[2..])
  }

  function Unescape(s: string): string
    requires Paired(s)
  {
    if s == [] then []
    else if s[0] != HYPHEN then [s[0]] + Unescape(s[1..])
    else [HYPHEN] + Unescape(s[2..])
  }

  lemma {:induction false} EscapeIsPaired(s: string)
    ensures Paired(Escape(s)) && Unescape(Escape(s)) == s
  {
    if s != [] {
      EscapeIsPaired(s[1..]);
      var e := Escape(s);
      if s[0] == HYPHEN { assert e[2..] == Escape(s[1..]); } else { assert e[1..] == Escape(s[1..]); }
      assert s == [s[0]] + s[1..];
    }
  }

  lemma {:induction false} PairedIsEscaped(s: string)
    requires Paired(s)
    ensures Escape(Unescape(s)) == s
  {
    if s != [] {
      var u := Unescape(s);
      if s[0] != HYPHEN {
        PairedIsEscaped(s[1..]);
        assert u[1..] == Unescape(s[1..]) && s == [s[0]] + s[1..];
      } else {
        PairedIsEscaped(s[2..]);
        assert u[1..] == Unescape(s[2..]) && s == [HYPHEN, HYPHEN] + s[2..];
      }
    }
  }

  lemma {:induction false} HyphenRun(s: string, run: nat)
    requires run <= |s| && forall i :: 0 <= i < run ==> s[i] == HYPHEN
    requires run < |s| ==> s[run] != HYPHEN
    ensures Paired(s) <==> run % 2 == 0 && Paired(s[run..])
  {
    if run >= 2 {
      HyphenRun(s[2..], run - 2);
      assert s[2..][run - 2..] == s[run..];
    } else if run == 0 {
      assert s[0..] == s;
    }
  }

  /** isEscaped: true exactly on the outputs of escapeHyphens. */
  method IsEscaped(s: string) returns (ok: bool)
    ensures ok <==> exists x :: Escape(x) == s
  {
    ghost var answer := Paired(s);
    if answer { PairedIsEscaped(s); }
    assert (exists x :: Escape(x) == s) ==> answer by {
      if x :| Escape(x) == s { EscapeIsPaired(x); }
    }
    var i := 0;
    assert s[0..] == s;
    while i < |s|
      invariant 0 <= i <= |s|
      invariant answer == Paired(s[i..])
      decreases |s| - i
    {
      if s[i] != HYPHEN {
        assert s[i..][1..] == s[i + 1..];
        i := i + 1;
        continue;
      }
      var run := 0;
      ghost var start := i;
      while i < |s| && s[i] == HYPHEN
        invariant i == start + run <= |s| && run >= 0
        invariant forall j :: start <= j < i ==> s[j] == HYPHEN
        invariant i == start ==> s[start] == HYPHEN
      {
        run := run + 1;
        i := i + 1;
      }
      HyphenRun(s[start..], run);
      assert s[start..][run..] == s[i..];
      if run % 2 != 0 { return false; }
    }
    return true;
  }

  /** namespacePrefix. */
  function Prefix(ns: string): string { Escape(ns) + [HYPHEN] }

  /** An identity the Kubernetes namespace ns may claim. */
  predicate MayClaim(ns: string, identity: string)
  {
    Prefix(ns) <= identity && Paired(identity[|Prefix(ns)|..])
  }

  predicate AllHyphens(s: string) { forall i :: 0 <= i < |s| ==> s[i] == HYPHEN }

  /** s without its trailing hyphens. */
  function Trim(s: string): string
  {
    if AllHyphens(s) then [] else [s[0]] + Trim(s[1..])
  }

  lemma {:induction false} TrimIsIdentity(s: string)
    ensures s == [] || s[|s| - 1] != HYPHEN ==> Trim(s) == s
  {
    if s != [] && s[|s| - 1] != HYPHEN {
      if |s| > 1 { TrimIsIdentity(s[1..]); }
      assert !AllHyphens(s);
      assert s == [s[0]] + s[1..];
    }
  }

  lemma TrimCons(c: char, s: string)
    ensures Trim([c] + s) == if c == HYPHEN && AllHyphens(s) then [] else [c] + Trim(s)
    ensures Trim(s) == [] <==> AllHyphens(s)
  {
    var t := [c] + s;
    assert t[1..] == s;
    if AllHyphens(s) {
      assert AllHyphens(t) <==> t[0] == HYPHEN;
    } else {
      var i :| 0 <= i < |s| && s[i] != HYPHEN;
      assert t[i + 1] != HYPHEN;
    }
  }

  lemma EscapeCons(ns: string, rest: string)
    requires ns != []
    ensures Escape(ns) + rest == (if ns[0] == HYPHEN then [HYPHEN, HYPHEN] else [ns[0]]) + (Escape(ns[1..]) + rest)
  {
  }

  lemma DropHead(a: string, x: string, y: string)
    requires a + x == a + y
    ensures x == y
  {
    assert x == (a + x)[|a|..] && y == (a + y)[|a|..];
  }

  lemma {:induction false} EmptyAgainst(rest: string, ns: string, rest': string)
    requires Paired(rest) && Paired(rest')
    requires [HYPHEN] + rest == Escape(ns) + ([HYPHEN] + rest')
    ensures AllHyphens(ns)
    decreases |ns|
  {
    if ns != [] {
      var v := [HYPHEN] + rest;
      EscapeCons(ns, [HYPHEN] + rest');
      var tail := Escape(ns[1..]) + ([HYPHEN] + rest');
      assert v[0] == HYPHEN && ns[0] == HYPHEN;
      assert v == [HYPHEN, HYPHEN] + tail;
      assert rest == [HYPHEN] + tail by {
        DropHead([HYPHEN], rest, [HYPHEN] + tail);
        assert [HYPHEN] + ([HYPHEN] + tail) == v;
      }
      assert tail == rest[1..];
      assert rest[1] == HYPHEN;
      assert tail == [HYPHEN] + rest[2..];
      EmptyAgainst(rest[2..], ns[1..], rest');
    }
  }

  /** One identity read as the claim of two namespaces: they differ in trailing hyphens only. */
  lemma {:induction false} SharedClaimSameTrim(a: string, rest: string, b: string, rest': string)
    requires Paired(rest) && Paired(rest')
    requires Escape(a) + ([HYPHEN] + rest) == Escape(b) + ([HYPHEN] + rest')
    ensures Trim(a) == Trim(b)
    decreases |a| + |b|
  {
    var x, y := [HYPHEN] + rest, [HYPHEN] + rest';
    if a == [] {
      assert Escape(a) + x == x;
      EmptyAgainst(rest, b, rest');
    } else if b == [] {
      assert Escape(b) + y == y;
      EmptyAgainst(rest', a, rest);
    } else {
      EscapeCons(a, x);
      EscapeCons(b, y);
      var v := Escape(a) + x;
      assert v[0] == a[0] && v[0] == b[0];
      DropHead(if a[0] == HYPHEN then [HYPHEN, HYPHEN] else [a[0]], Escape(a[1..]) + x, Escape(b[1..]) + y);
      SharedClaimSameTrim(a[1..], rest, b[1..], rest');
      TrimCons(a[0], a[1..]);
      TrimCons(b[0], b[1..]);
      assert a == [a[0]] + a[1..] && b == [b[0]] + b[1..];
    }
  }

  function Hyphens(n: nat): (h: string)
    ensures |h| == n && AllHyphens(h)
  {
    seq(n, _ => HYPHEN)
  }

  lemma {:induction false} HyphensArePaired(n: nat)
    ensures Paired(Hyphens(2 * n))
  {
    if n > 0 {
      HyphensArePaired(n - 1);
      assert Hyphens(2 * n)[2..] == Hyphens(2 * (n - 1));
    }
  }

  lemma {:induction false} EscapeHyphens(s: string)
    requires AllHyphens(s)
    ensures Escape(s) == Hyphens(2 * |s|)
  {
    if s != [] {
      EscapeHyphens(s[1..]);
      assert [HYPHEN, HYPHEN] + Hyphens(2 * (|s| - 1)) == Hyphens(2 * |s|);
    }
  }

  /** Escaping in terms of the trimmed string. */
  lemma {:induction false} EscapeTrim(s: string)
    ensures |Trim(s)| <= |s|
    ensures Escape(s) == Escape(Trim(s)) + Hyphens(2 * (|s| - |Trim(s)|))
  {
    if AllHyphens(s) {
      EscapeHyphens(s);
      assert Escape([]) + Hyphens(2 * |s|) == Hyphens(2 * |s|);
    } else {
      EscapeTrim(s[1..]);
      var t := Trim(s[1..]);
      assert ([s[0]] + t)[1..] == t;
      EscapeCons([s[0]] + t, Hyphens(2 * (|s| - 1 - |t|)));
    }
  }

  lemma SplitHyphens(extra: nat, own: nat)
    requires own <= extra
    ensures Hyphens(2 * extra + 1) == Hyphens(2 * own) + ([HYPHEN] + Hyphens(2 * (extra - own)))
  {
  }

  lemma ClaimWith(ns: string, rest: string)
    ensures MayClaim(ns, Escape(ns) + ([HYPHEN] + rest)) <==> Paired(rest)
  {
    var v := Escape(ns) + ([HYPHEN] + rest);
    assert v == Prefix(ns) + rest;
    assert v[|Prefix(ns)|..] == rest;
  }

  lemma ClaimOfTrimmed(ns: string, extra: nat)
    requires extra >= |ns| - |Trim(ns)|
    ensures MayClaim(ns, Escape(Trim(ns)) + Hyphens(2 * extra + 1))
  {
    EscapeTrim(ns);
    var own := |ns| - |Trim(ns)|;
    var rest := Hyphens(2 * (extra - own));
    SplitHyphens(extra, own);
    HyphensArePaired(extra - own);
    ClaimWith(ns, rest);
    Regroup(Escape(Trim(ns)), Hyphens(2 * own), [HYPHEN] + rest);
  }

  lemma Regroup(a: string, b: string, c: string)
    ensures a + (b + c) == a + b + c
  {
  }

  lemma ClaimedForm(ns: string, v: string) returns (rest: string)
    requires MayClaim(ns, v)
    ensures Paired(rest) && v == Escape(ns) + ([HYPHEN] + rest)
  {
    rest := v[|Prefix(ns)|..];
    assert v == Prefix(ns) + rest;
  }

  /** Two Kubernetes namespaces can claim a common identity exactly when they are equal up
      to trailing hyphens, which no RFC 1123 label (section 2.1) has. */
  lemma NamespacesCollideExactly(a: string, b: string)
    ensures (exists v :: MayClaim(a, v) && MayClaim(b, v)) <==> Trim(a) == Trim(b)
  {
    if v :| MayClaim(a, v) && MayClaim(b, v) { CommonClaim(a, b, v); }
    if Trim(a) == Trim(b) { var v := SharedClaim(a, b); }
  }

  lemma SharedClaim(a: string, b: string) returns (v: string)
    requires Trim(a) == Trim(b)
    ensures MayClaim(a, v) && MayClaim(b, v)
  {
    v := Escape(Trim(a)) + Hyphens(2 * (|a| + |b|) + 1);
    ClaimOfTrimmed(a, |a| + |b|);
    ClaimOfTrimmed(b, |a| + |b|);
  }

  lemma CommonClaim(a: string, b: string, v: string)
    requires MayClaim(a, v) && MayClaim(b, v)
    ensures Trim(a) == Trim(b)
  {
    var rest := ClaimedForm(a, v);
    var rest' := ClaimedForm(b, v);
    SharedClaimSameTrim(a, rest, b, rest');
  }

  // ---- mapping Services ----

  /** What identity mapping reads of a Service; rest stands for everything else in it. */
  datatype Service = Service(namespace: string, name: string, configId: string, configNamespace: string,
                             annotatedId: string, annotatedNamespace: string, rest: string)

  datatype Upstream = Upstream(id: string, namespace: string, org: string, team: string, rest: string)

  /** accepts stands for the checks that look at one entry alone: allowed credentials, their
      destinations, the port, and validation of the entry. */
  datatype Options = Options(unprefixedIds: bool, reserved: set<string>, accepts: Upstream -> bool)

  function FirstNonEmpty(a: string, b: string, c: string): string
  {
    if a != "" then a else if b != "" then b else c
  }

  /** mapService and the per-entry checks; None: the Service is skipped. */
  function MapService(svc: Service, opts: Options): Option<Upstream>
  {
    var derived := if opts.unprefixedIds then svc.name else Prefix(svc.namespace) + Escape(svc.name);
    var id := FirstNonEmpty(svc.configId, svc.annotatedId, derived);
    var namespace := FirstNonEmpty(svc.configNamespace, svc.annotatedNamespace, id);
    var u := Upstream(id, namespace, svc.namespace, svc.name, svc.rest);
    if !opts.unprefixedIds && !(MayClaim(svc.namespace, id) && MayClaim(svc.namespace, namespace)) then None
    else if !opts.accepts(u) || id in opts.reserved || namespace in opts.reserved then None
    else Some(u)
  }

  /** The check of one claimed identity: the prefix, and then an escaped name. */
  method ClaimAllowed(ns: string, identity: string) returns (ok: bool)
    ensures ok <==> MayClaim(ns, identity)
  {
    var prefix := Prefix(ns);
    if !(prefix <= identity) { return false; }
    var rest := identity[|prefix|..];
    ok := IsEscaped(rest);
    if Paired(rest) { PairedIsEscaped(rest); }
    if s :| rest == Escape(s) { EscapeIsPaired(s); }
  }

  /** mapService, and the checks of one entry: who names an identity first, the embedded entry,
      then the annotation, then the Service itself; who owns it is never its own claim. */
  method MapOne(svc: Service, opts: Options) returns (u: Option<Upstream>)
    ensures u == MapService(svc, opts)
  {
    var id, namespace := svc.configId, svc.configNamespace;
    if id == "" {
      id := svc.annotatedId;
      if id == "" {
        id := svc.name;
        if !opts.unprefixedIds { id := Prefix(svc.namespace) + Escape(svc.name); }
      }
    }
    if namespace == "" {
      namespace := svc.annotatedNamespace;
      if namespace == "" { namespace := id; }
    }
    if !opts.unprefixedIds {
      var ok := ClaimAllowed(svc.namespace, id);
      if !ok { return None; }
      ok := ClaimAllowed(svc.namespace, namespace);
      if !ok { return None; }
    }
    var entry := Upstream(id, namespace, svc.namespace, svc.name, svc.rest);
    if !opts.accepts(entry) { return None; }
    if id in opts.reserved || namespace in opts.reserved { return None; }
    return Some(entry);
  }

  /** A Service becomes exactly this entry, or none: configured identities come before annotated
      ones and those before derived ones; the owner is the Service; with prefixing both
      identities are ones its namespace may claim; and neither is reserved. */
  lemma MappedExactly(svc: Service, opts: Options, u: Upstream)
    ensures MapService(svc, opts) == Some(u) <==>
            && u.org == svc.namespace && u.team == svc.name && u.rest == svc.rest
            && (svc.configId != "" ==> u.id == svc.configId)
            && (svc.configId == "" && svc.annotatedId != "" ==> u.id == svc.annotatedId)
            && (svc.configId == "" && svc.annotatedId == "" ==>
                  u.id == if opts.unprefixedIds then svc.name else Escape(svc.namespace) + "-" + Escape(svc.name))
            && (svc.configNamespace != "" ==> u.namespace == svc.configNamespace)
            && (svc.configNamespace == "" && svc.annotatedNamespace != "" ==> u.namespace == svc.annotatedNamespace)
            && (svc.configNamespace == "" && svc.annotatedNamespace == "" ==> u.namespace == u.id)
            && (!opts.unprefixedIds ==> MayClaim(svc.namespace, u.id) && MayClaim(svc.namespace, u.namespace))
            && opts.accepts(u) && u.id !in opts.reserved && u.namespace !in opts.reserved
  {
  }

  /** A Service that names no identity gets one its namespace may claim. */
  lemma DerivedIdentityIsClaimable(namespace: string, name: string)
    ensures MayClaim(namespace, Prefix(namespace) + Escape(name))
  {
    EscapeIsPaired(name);
    assert (Prefix(namespace) + Escape(name))[|Prefix(namespace)|..] == Escape(name);
  }

  /** For namespaces that do not end in a hyphen the derived identity names the Service: equal
      identities come from equal namespaces and equal names. */
  lemma DerivedIdentityIsOneToOne(ns1: string, name1: string, ns2: string, name2: string)
    requires ns1 == [] || ns1[|ns1| - 1] != HYPHEN
    requires ns2 == [] || ns2[|ns2| - 1] != HYPHEN
    requires Prefix(ns1) + Escape(name1) == Prefix(ns2) + Escape(name2)
    ensures ns1 == ns2 && name1 == name2
  {
    DerivedIdentityIsClaimable(ns1, name1);
    DerivedIdentityIsClaimable(ns2, name2);
    CommonClaim(ns1, ns2, Prefix(ns1) + Escape(name1));
    TrimIsIdentity(ns1);
    TrimIsIdentity(ns2);
    DropHead(Prefix(ns1), Escape(name1), Escape(name2));
    EscapeInjective(name1, name2);
  }

  lemma {:induction false} EscapeInjective(a: string, b: string)
    requires Escape(a) == Escape(b)
    ensures a == b
  {
    if a != [] && b != [] {
      assert a[0] == Escape(a)[0] == Escape(b)[0] == b[0];
      DropHead(if a[0] == HYPHEN then [HYPHEN, HYPHEN] else [a[0]], Escape(a[1..]), Escape(b[1..]));
      EscapeInjective(a[1..], b[1..]);
      assert a == [a[0]] + a[1..] && b == [b[0]] + b[1..];
    }
  }

  /** With prefixing, Services of different Kubernetes namespaces never contest an identity. */
  lemma TeamsNeverContest(s: Service, t: Service, opts: Options)
    requires !opts.unprefixedIds && MapService(s, opts).Some? && MapService(t, opts).Some?
    requires s.namespace == [] || s.namespace[|s.namespace| - 1] != HYPHEN
    requires t.namespace == [] || t.namespace[|t.namespace| - 1] != HYPHEN
    requires s.namespace != t.namespace
    ensures var u, v := MapService(s, opts).value, MapService(t, opts).value;
            {u.id, u.namespace} !! {v.id, v.namespace}
  {
    TrimIsIdentity(s.namespace);
    TrimIsIdentity(t.namespace);
    NamespacesCollideExactly(s.namespace, t.namespace);
  }

  function Collect<A, B>(xs: seq<A>, f: A -> Option<B>): seq<B>
  {
    if xs == [] then []
    else
      var init := Collect(xs[..|xs| - 1], f);
      var y := f(xs[|xs| - 1]);
      if y.Some? then init + [y.value] else init
  }

  function Candidates(services: seq<Service>, opts: Options): seq<Upstream>
  {
    Collect(services, (s: Service) => MapService(s, opts))
  }

  function ById(id: string): Upstream -> Option<Upstream>
  {
    (u: Upstream) => if u.id == id then Some(u) else None
  }

  function ByNamespace(ns: string): Upstream -> Option<Upstream>
  {
    (u: Upstream) => if u.namespace == ns then Some(u) else None
  }

  /** How many candidates claim an id, and an MCP namespace. */
  function IdClaims(us: seq<Upstream>, id: string): nat { |Collect(us, ById(id))| }

  function NamespaceClaims(us: seq<Upstream>, ns: string): nat { |Collect(us, ByNamespace(ns))| }

  predicate Contested(us: seq<Upstream>, u: Upstream)
  {
    IdClaims(us, u.id) > 1 || NamespaceClaims(us, u.namespace) > 1
  }

  function Unless(us: seq<Upstream>): Upstream -> Option<Upstream>
  {
    (u: Upstream) => if Contested(us, u) then None else Some(u)
  }

  function IdOf(u: Upstream): string { u.id }

  /** The published entries: every claimant of a contested identity dropped, sorted by id. */
  function Document(services: seq<Service>, opts: Options): seq<Upstream>
  {
    var us := Candidates(services, opts);
    SortBy(Collect(us, Unless(us)), IdOf)
  }

  function Count(m: map<string, int>, k: string): int { if k in m then m[k] else 0 }

  ghost predicate CountsClaims(seenId: map<string, int>, seenNs: map<string, int>, us: seq<Upstream>)
  {
    && (forall id :: Count(seenId, id) == IdClaims(us, id))
    && (forall ns :: Count(seenNs, ns) == NamespaceClaims(us, ns))
  }

  /** The first pass: the candidates, and how often each identity is claimed. */
  method GatherCandidates(services: seq<Service>, opts: Options)
    returns (candidates: seq<Upstream>, seenId: map<string, int>, seenNs: map<string, int>)
    ensures candidates == Candidates(services, opts) && CountsClaims(seenId, seenNs, candidates)
  {
    candidates, seenId, seenNs := [], map[], map[];
    for i := 0 to |services|
      invariant candidates == Candidates(services[..i], opts) && CountsClaims(seenId, seenNs, candidates)
    {
      assert services[..i + 1][..i] == services[..i];
      var u := MapOne(services[i], opts);
      if u.None? { continue; }
      ClaimsSnoc(candidates, u.value);
      seenId := seenId[u.value.id := Count(seenId, u.value.id) + 1];
      seenNs := seenNs[u.value.namespace := Count(seenNs, u.value.namespace) + 1];
      candidates := candidates + [u.value];
    }
    assert services[..|services|] == services;
  }

  /** The second pass: every claimant of a contested identity is dropped. */
  method KeepUncontested(candidates: seq<Upstream>, seenId: map<string, int>, seenNs: map<string, int>)
    returns (ups: seq<Upstream>)
    requires CountsClaims(seenId, seenNs, candidates)
    ensures ups == Collect(candidates, Unless(candidates))
  {
    ups := [];
    for i := 0 to |candidates|
      invariant ups == Collect(candidates[..i], Unless(candidates))
    {
      assert candidates[..i + 1][..i] == candidates[..i];
      var c := candidates[i];
      if Count(seenId, c.id) > 1 || Count(seenNs, c.namespace) > 1 { continue; }
      ups := ups + [c];
    }
    assert candidates[..|candidates|] == candidates;
  }

  method MapServices(services: seq<Service>, opts: Options) returns (ups: seq<Upstream>)
    ensures ups == Document(services, opts)
  {
    var candidates, seenId, seenNs := GatherCandidates(services, opts);
    ups := KeepUncontested(candidates, seenId, seenNs);
    ups := SortBy(ups, IdOf);
  }

  lemma ClaimsSnoc(us: seq<Upstream>, u: Upstream)
    ensures forall id :: IdClaims(us + [u], id) == IdClaims(us, id) + if u.id == id then 1 else 0
    ensures forall ns :: NamespaceClaims(us + [u], ns) == NamespaceClaims(us, ns) + if u.namespace == ns then 1 else 0
  {
    assert (us + [u])[..|us + [u]| - 1] == us;
  }

  // ---- the document does not depend on the order of the Services ----

  lemma {:induction false} CollectConcat<A, B>(xs: seq<A>, ys: seq<A>, f: A -> Option<B>)
    ensures Collect(xs + ys, f) == Collect(xs, f) + Collect(ys, f)
  {
    if ys == [] {
      assert xs + ys == xs;
    } else {
      assert (xs + ys)[..|xs + ys| - 1] == xs + ys[..|ys| - 1];
      CollectConcat(xs, ys[..|ys| - 1], f);
    }
  }

  /** Taking one element out of a sequence takes its image out of the collection. */
  lemma CollectWithout<A, B>(xs: seq<A>, j: nat, f: A -> Option<B>)
    requires j < |xs|
    ensures multiset(Collect(xs, f)) ==
            multiset(Collect(xs[..j] + xs[j + 1..], f)) + multiset(Collect([xs[j]], f))
  {
    SplitAt(xs, j);
    CollectThree(xs[..j], xs[j], xs[j + 1..], f);
  }

  lemma CollectThree<A, B>(a: seq<A>, x: A, b: seq<A>, f: A -> Option<B>)
    ensures multiset(Collect(a + [x] + b, f)) == multiset(Collect(a + b, f)) + multiset(Collect([x], f))
  {
    CollectConcat(a + [x], b, f);
    CollectConcat(a, [x], f);
    CollectConcat(a, b, f);
  }

  lemma MultisetWithout<A>(xs: seq<A>, j: nat)
    requires j < |xs|
    ensures multiset(xs[..j] + xs[j + 1..]) == multiset(xs) - multiset{xs[j]}
  {
    assert xs == xs[..j] + [xs[j]] + xs[j + 1..];
  }

  lemma {:induction false} CollectPermutes<A, B>(xs: seq<A>, ys: seq<A>, f: A -> Option<B>)
    requires multiset(xs) == multiset(ys)
    ensures multiset(Collect(xs, f)) == multiset(Collect(ys, f))
  {
    SameMembers(xs, ys);
    if xs != [] {
      var k := |xs| - 1;
      assert xs[k] in ys;
      var j :| 0 <= j < |ys| && ys[j] == xs[k];
      MultisetWithout(xs, k);
      MultisetWithout(ys, j);
      CollectWithout(xs, k, f);
      CollectWithout(ys, j, f);
      CollectPermutes(xs[..k] + xs[k + 1..], ys[..j] + ys[j + 1..], f);
    }
  }

  lemma CollectSameSize<A, B>(xs: seq<A>, ys: seq<A>, f: A -> Option<B>)
    requires multiset(xs) == multiset(ys)
    ensures |Collect(xs, f)| == |Collect(ys, f)|
  {
    CollectPermutes(xs, ys, f);
    SameMembers(Collect(xs, f), Collect(ys, f));
  }

  lemma ContestedPermutes(us: seq<Upstream>, vs: seq<Upstream>, u: Upstream)
    requires multiset(us) == multiset(vs)
    ensures Contested(us, u) <==> Contested(vs, u)
  {
    CollectSameSize(us, vs, ById(u.id));
    CollectSameSize(us, vs, ByNamespace(u.namespace));
  }

  lemma {:induction false} CollectAgrees<A, B>(xs: seq<A>, f: A -> Option<B>, g: A -> Option<B>)
    requires forall x :: x in xs ==> f(x) == g(x)
    ensures Collect(xs, f) == Collect(xs, g)
  {
    if xs != [] { CollectAgrees(xs[..|xs| - 1], f, g); }
  }

  lemma {:induction false} CollectMembers(us: seq<Upstream>, keep: Upstream -> Option<Upstream>, u: Upstream)
    requires forall x :: keep(x).Some? ==> keep(x).value == x
    ensures u in Collect(us, keep) <==> u in us && keep(u).Some?
  {
    if us != [] { CollectMembers(us[..|us| - 1], keep, u); }
  }

  lemma {:induction false} TwoClaims(us: seq<Upstream>, f: Upstream -> Option<Upstream>, i: nat, j: nat)
    requires i < j < |us| && f(us[i]).Some? && f(us[j]).Some?
    ensures |Collect(us, f)| >= 2
  {
    assert us == us[..j] + us[j..];
    CollectConcat(us[..j], us[j..], f);
    CollectHits(us[..j], f, i);
    CollectHits(us[j..], f, 0);
  }

  lemma {:induction false} CollectHits<A, B>(xs: seq<A>, f: A -> Option<B>, i: nat)
    requires i < |xs| && f(xs[i]).Some?
    ensures |Collect(xs, f)| >= 1
  {
    if i < |xs| - 1 { CollectHits(xs[..|xs| - 1], f, i); }
  }

  /** Two uncontested candidates that share an id or a namespace are the same one. */
  lemma UncontestedAreDistinct(us: seq<Upstream>, u: Upstream, v: Upstream)
    requires u in us && v in us && !Contested(us, u) && !Contested(us, v)
    requires u.id == v.id || u.namespace == v.namespace
    ensures u == v
  {
    var i :| 0 <= i < |us| && us[i] == u;
    var j :| 0 <= j < |us| && us[j] == v;
    if i != j {
      var a, b := if i < j then i else j, if i < j then j else i;
      if u.id == v.id { TwoClaims(us, ById(u.id), a, b); } else { TwoClaims(us, ByNamespace(u.namespace), a, b); }
    }
  }

  lemma KeptDeterminedById(us: seq<Upstream>)
    ensures KeyDetermines(Collect(us, Unless(us)), IdOf)
  {
    var kept := Collect(us, Unless(us));
    forall u, v | u in kept && v in kept && IdOf(u) == IdOf(v) ensures u == v {
      CollectMembers(us, Unless(us), u);
      CollectMembers(us, Unless(us), v);
      UncontestedAreDistinct(us, u, v);
    }
  }

  /** The same Services listed in any order give the same document. */
  lemma DocumentIgnoresOrder(a: seq<Service>, b: seq<Service>, opts: Options)
    requires multiset(a) == multiset(b)
    ensures Document(a, opts) == Document(b, opts)
  {
    var us, vs := Candidates(a, opts), Candidates(b, opts);
    CollectPermutes(a, b, (s: Service) => MapService(s, opts));
    forall u | u in vs ensures Unless(us)(u) == Unless(vs)(u) {
      ContestedPermutes(us, vs, u);
    }
    CollectAgrees(vs, Unless(us), Unless(vs));
    CollectPermutes(us, vs, Unless(us));
    KeptDeterminedById(us);
    SortIgnoresOrder(Collect(us, Unless(us)), Collect(vs, Unless(vs)), IdOf);
  }

  lemma {:induction false} CollectKeepsAtMost(us: seq<Upstream>, keep: Upstream -> Option<Upstream>, u: Upstream)
    requires forall x :: keep(x).Some? ==> keep(x).value == x
    ensures multiset(Collect(us, keep))[u] <= multiset(us)[u]
  {
    if us != [] {
      CollectKeepsAtMost(us[..|us| - 1], keep, u);
      assert us == us[..|us| - 1] + [us[|us| - 1]];
    }
  }

  lemma TwicePresent<T>(xs: seq<T>, i: nat, j: nat)
    requires i < j < |xs| && xs[i] == xs[j]
    ensures multiset(xs)[xs[i]] >= 2
  {
    assert xs == xs[..j] + xs[j..];
    assert xs[i] in xs[..j] && xs[j] in xs[j..];
  }

  lemma {:induction false} PresentTwice<T>(xs: seq<T>, x: T) returns (i: nat, j: nat)
    requires multiset(xs)[x] >= 2
    ensures i < j < |xs| && xs[i] == x == xs[j]
  {
    var last := |xs| - 1;
    assert xs == xs[..last] + [xs[last]];
    if xs[last] == x {
      assert x in xs[..last];
      i, j :| 0 <= i < last && j == last && xs[i] == x;
    } else {
      i, j := PresentTwice(xs[..last], x);
    }
  }

  lemma DocumentHasNoDuplicate(services: seq<Service>, opts: Options, i: nat, j: nat)
    requires i < j < |Document(services, opts)|
    ensures Document(services, opts)[i] != Document(services, opts)[j]
  {
    var doc := Document(services, opts);
    var us := Candidates(services, opts);
    if doc[i] == doc[j] {
      TwicePresent(doc, i, j);
      CollectKeepsAtMost(us, Unless(us), doc[i]);
      var a, b := PresentTwice(us, doc[i]);
      TwoClaims(us, ById(doc[i].id), a, b);
      SameMembers(Collect(us, Unless(us)), doc);
      CollectMembers(us, Unless(us), doc[i]);
      assert false;
    }
  }

  /** A Service is published exactly when nobody contests its identities, each id and each
      MCP namespace is published once, and the entries are sorted by id. */
  lemma DocumentIsUnambiguous(services: seq<Service>, opts: Options)
    ensures var doc := Document(services, opts);
            && SortedBy(doc, IdOf)
            && (forall i, j :: 0 <= i < j < |doc| ==>
                  doc[i].id != doc[j].id && doc[i].namespace != doc[j].namespace)
            && (forall u :: u in doc <==>
                  u in Candidates(services, opts) && !Contested(Candidates(services, opts), u))
  {
    var us := Candidates(services, opts);
    var kept := Collect(us, Unless(us));
    var doc := Document(services, opts);
    SortBySorts(kept, IdOf);
    SameMembers(kept, doc);
    forall u ensures u in doc <==> u in us && !Contested(us, u) {
      CollectMembers(us, Unless(us), u);
    }
    forall i, j | 0 <= i < j < |doc| ensures doc[i].id != doc[j].id && doc[i].namespace != doc[j].namespace {
      DocumentHasNoDuplicate(services, opts, i, j);
      assert doc[i] in doc && doc[j] in doc;
      if doc[i].id == doc[j].id || doc[i].namespace == doc[j].namespace {
        UncontestedAreDistinct(us, doc[i], doc[j]);
        assert false;
      }
    }
  }
}
