/**
 Federated pagination by offsets into a snapshot. A cursor names the list, the snapshot it
 was minted against and its caller, and is refused for any other.
 */
module Paginate {
  import opened Wrappers

  datatype Cursor = Cursor(kind: string, offset: int, gen: string, principal: string)

  datatype Principal = Principal(issuer: string, subject: string)

  /** The foreign parts: the truncated digest, and the base64url-of-JSON cursor codec
      (base64url: section 5 of RFC 4648). */
  datatype Env = Env(digest: string -> string, encode: Cursor -> string, decode: string -> Option<Cursor>)

  /** Assumed of the codec: decoding inverts encoding, and no cursor encodes to nothing. */
  ghost predicate Decodable(env: Env)
  {
    forall c :: env.decode(env.encode(c)) == Some(c) && env.encode(c) != ""
  }

  ghost predicate CollisionFree(env: Env)
  {
    forall a, b :: env.digest(a) == env.digest(b) ==> a == b
  }

  const NUL := '\0'

  ghost predicate NulFree(s: string) { NUL !in s }

  /** The byte stream that is fingerprinted: the kind, then a NUL and each name. */
  function Feed(kind: string, names: seq<string>): string
  {
    if names == [] then kind
    else Feed(kind, names[..|names| - 1]) + [NUL] + names[|names| - 1]
  }

  function Names<T>(items: seq<T>, name: T -> string): (r: seq<string>)
    ensures |r| == |items| && forall i :: 0 <= i < |items| ==> r[i] == name(items[i])
  {
    seq(|items|, i requires 0 <= i < |items| => name(items[i]))
  }

  function SnapshotGen<T>(env: Env, kind: string, items: seq<T>, name: T -> string): string
  {
    env.digest(Feed(kind, Names(items, name)))
  }

  /** snapshotGen reads the names straight off the items. */
  method ComputeSnapshotGen<T>(env: Env, kind: string, items: seq<T>, name: T -> string) returns (gen: string)
    ensures gen == SnapshotGen(env, kind, items, name)
  {
    var h := kind;
    ghost var names := Names(items, name);
    for i := 0 to |items|
      invariant h == Feed(kind, names[..i])
    {
      assert names[..i + 1][..i] == names[..i];
      h := h + [NUL];
      h := h + name(items[i]);
    }
    assert names[..|items|] == names;
    gen := env.digest(h);
  }

  function PrincipalId(p: Option<Principal>): string
  {
    if p.None? then "" else p.value.issuer + [NUL] + p.value.subject
  }

  function PrincipalKey(env: Env, p: Option<Principal>): string { env.digest(PrincipalId(p)) }

  datatype Result<T> = Page(items: seq<T>, next: string) | BadCursor

  /** Same list, snapshot and caller, and an offset inside the snapshot. */
  predicate CursorFits(c: Cursor, expected: Cursor, n: int)
  {
    c.(offset := 0) == expected.(offset := 0) && 0 < c.offset <= n
  }

  /** Everything about a list request but its cursor. */
  datatype Query<!T> = Query(env: Env, items: seq<T>, name: T -> string, kind: string, size: int,
                             principal: Option<Principal>)

  /** The cursor that continues at an offset of this snapshot, for this caller. */
  function At<T>(q: Query<T>, offset: int): Cursor
  {
    Cursor(q.kind, offset, SnapshotGen(q.env, q.kind, q.items, q.name), PrincipalKey(q.env, q.principal))
  }

  function Slice<T>(q: Query<T>, offset: nat): Result<T>
    requires offset <= |q.items| && q.size > 0
  {
    var end := if offset + q.size < |q.items| then offset + q.size else |q.items|;
    Page(q.items[offset..end], if end < |q.items| then q.env.encode(At(q, end)) else "")
  }

  function Paginate<T>(q: Query<T>, raw: string): Result<T>
  {
    if q.size <= 0 then (if raw != "" then BadCursor else Page(q.items, ""))
    else if raw == "" && |q.items| <= q.size then Page(q.items, "")
    else if raw == "" then Slice(q, 0)
    else
      var c := q.env.decode(raw);
      if c.None? || !CursorFits(c.value, At(q, 0), |q.items|) then BadCursor
      else Slice(q, c.value.offset)
  }

  // ---- walking a list ----

  /** Request i asks for the first page, or follows the cursor that request i - 1 was given. */
  ghost predicate IsWalkStep<T>(q: Query<T>, raws: seq<string>, results: seq<Result<T>>, i: nat)
    requires i < |raws| == |results|
  {
    && results[i] == Paginate(q, raws[i])
    && if i == 0 then raws[i] == "" else results[i - 1].Page? && raws[i] == results[i - 1].next != ""
  }

  ghost predicate IsWalk<T>(q: Query<T>, raws: seq<string>, results: seq<Result<T>>)
  {
    |raws| == |results| >= 1 && forall i :: 0 <= i < |raws| ==> IsWalkStep(q, raws, results, i)
  }

  function Concat<T>(results: seq<Result<T>>): seq<T>
  {
    if results == [] then []
    else
      var last := results[|results| - 1];
      Concat(results[..|results| - 1]) + if last.Page? then last.items else []
  }

  function RawAt<T>(q: Query<T>, offset: nat): string
  {
    if offset == 0 then "" else q.env.encode(At(q, offset))
  }

  /** One request at an offset that a walk can reach. */
  lemma RequestAt<T>(q: Query<T>, offset: nat)
    requires Decodable(q.env) && q.size > 0
    requires offset == 0 || offset < |q.items|
    ensures Paginate(q, RawAt(q, offset)) == Slice(q, offset)
  {
    if offset == 0 && |q.items| <= q.size { assert q.items[0..|q.items|] == q.items; }
  }

  /** How many of n items the first k pages cover. */
  function Reached(n: nat, size: int, k: nat): (r: nat)
    requires size > 0
    ensures r <= n
  {
    if k == 0 then 0
    else
      var a := Reached(n, size, k - 1);
      if a + size < n then a + size else n
  }

  lemma {:induction false} ReachedAtLeast(n: nat, size: int, k: nat)
    requires size > 0
    ensures Reached(n, size, k) >= k || Reached(n, size, k) == n
  {
    if k > 0 { ReachedAtLeast(n, size, k - 1); }
  }

  /** Request i of a walk is for the offset that i full pages reach. */
  lemma {:induction false} WalkPage<T>(q: Query<T>, raws: seq<string>, results: seq<Result<T>>, i: nat)
    requires Decodable(q.env) && q.size > 0
    requires IsWalk(q, raws, results) && i < |raws|
    ensures var a := Reached(|q.items|, q.size, i);
            (i == 0 || a < |q.items|) && results[i] == Slice(q, a)
  {
    var n := |q.items|;
    assert IsWalkStep(q, raws, results, i);
    if i == 0 {
      RequestAt(q, 0);
    } else {
      WalkPage(q, raws, results, i - 1);
      assert raws[i] == results[i - 1].next;
      RequestAt(q, Reached(n, q.size, i));
    }
  }

  lemma ConcatSnoc<T>(results: seq<Result<T>>, k: nat, items: seq<T>, a: nat, b: nat)
    requires k < |results| && a <= b <= |items|
    requires Concat(results[..k]) == items[..a]
    requires results[k].Page? && results[k].items == items[a..b]
    ensures Concat(results[..k + 1]) == items[..b]
  {
    assert results[..k + 1][..k] == results[..k];
    assert items[..a] + items[a..b] == items[..b];
  }

  lemma {:induction false} WalkConcat<T>(q: Query<T>, raws: seq<string>, results: seq<Result<T>>, k: nat)
    requires Decodable(q.env) && q.size > 0 && k <= |raws|
    requires IsWalk(q, raws, results)
    ensures Concat(results[..k]) == q.items[..Reached(|q.items|, q.size, k)]
  {
    if k > 0 {
      WalkConcat(q, raws, results, k - 1);
      WalkPage(q, raws, results, k - 1);
      ConcatSnoc(results, k - 1, q.items, Reached(|q.items|, q.size, k - 1), Reached(|q.items|, q.size, k));
    }
  }

  lemma WalkPagesFit<T>(q: Query<T>, raws: seq<string>, results: seq<Result<T>>)
    requires Decodable(q.env) && q.size > 0 && IsWalk(q, raws, results)
    ensures forall i :: 0 <= i < |results| ==> results[i].Page? && |results[i].items| <= q.size
  {
    forall i | 0 <= i < |results| ensures results[i].Page? && |results[i].items| <= q.size {
      WalkPage(q, raws, results, i);
    }
  }

  /** A page has no cursor exactly when it reaches the end of the list. */
  lemma LastPage<T>(q: Query<T>, k: nat)
    requires Decodable(q.env) && q.size > 0
    ensures var n, a := |q.items|, Reached(|q.items|, q.size, k);
            && Slice(q, a).Page?
            && (Slice(q, a).next == "" <==> Reached(n, q.size, k + 1) == n)
  {
  }

  lemma PrefixIsWhole<T>(items: seq<T>, b: nat)
    requires b <= |items|
    ensures items[..b] <= items && (items[..b] == items <==> b == |items|)
  {
  }

  lemma WalkCovers<T>(q: Query<T>, raws: seq<string>, results: seq<Result<T>>)
    requires Decodable(q.env) && q.size > 0 && IsWalk(q, raws, results)
    ensures Concat(results) == q.items[..Reached(|q.items|, q.size, |results|)]
  {
    WalkConcat(q, raws, results, |results|);
    assert results[..|results|] == results;
  }

  lemma WalkEnd<T>(q: Query<T>, last: Result<T>, all: seq<T>, k: nat)
    requires Decodable(q.env) && q.size > 0
    requires last == Slice(q, Reached(|q.items|, q.size, k)) && (k == 0 || Reached(|q.items|, q.size, k) < |q.items|)
    requires all == q.items[..Reached(|q.items|, q.size, k + 1)]
    ensures k == 0 || k < |q.items|
    ensures all <= q.items && last.Page? && (last.next == "" <==> all == q.items)
  {
    LastPage(q, k);
    ReachedAtLeast(|q.items|, q.size, k);
    PrefixIsWhole(q.items, Reached(|q.items|, q.size, k + 1));
  }

  /** Following cursors never meets a refusal, never skips or repeats an item, keeps every
      page within the page size, and ends, after at most one page per item, with exactly
      the snapshot. */
  lemma WalkReproducesSnapshot<T>(q: Query<T>, raws: seq<string>, results: seq<Result<T>>)
    requires Decodable(q.env) && q.size > 0
    requires IsWalk(q, raws, results)
    ensures forall i :: 0 <= i < |results| ==> results[i].Page? && |results[i].items| <= q.size
    ensures |results| == 1 || |results| <= |q.items|
    ensures Concat(results) <= q.items
    ensures results[|results| - 1].next == "" <==> Concat(results) == q.items
  {
    WalkPagesFit(q, raws, results);
    var k := |results| - 1;
    WalkPage(q, raws, results, k);
    WalkCovers(q, raws, results);
    WalkEnd(q, results[k], Concat(results), k);
  }

  // ---- which cursors are accepted ----

  lemma SameTail(a: string, x: string, b: string, y: string)
    requires NulFree(x) && NulFree(y)
    requires a + [NUL] + x == b + [NUL] + y
    ensures a == b && x == y
  {
    var s := a + [NUL] + x;
    assert s[|a|] == NUL && s[|b|] == NUL;
    assert forall i :: |a| < i < |s| ==> s[i] == x[i - |a| - 1];
    assert forall i :: |b| < i < |s| ==> s[i] == y[i - |b| - 1];
    assert |a| == |b|;
    assert a == s[..|a|] && b == s[..|b|];
    assert x == s[|a| + 1..] && y == s[|b| + 1..];
  }

  lemma FeedHasNul(kind: string, names: seq<string>)
    requires NulFree(kind)
    ensures NUL in Feed(kind, names) <==> names != []
  {
    if names != [] {
      assert Feed(kind, names)[|Feed(kind, names[..|names| - 1])|] == NUL;
    }
  }

  /** The fingerprinted stream determines the kind and every name. */
  lemma {:induction false} FeedInjective(k1: string, n1: seq<string>, k2: string, n2: seq<string>)
    requires NulFree(k1) && NulFree(k2)
    requires forall i :: 0 <= i < |n1| ==> NulFree(n1[i])
    requires forall i :: 0 <= i < |n2| ==> NulFree(n2[i])
    requires Feed(k1, n1) == Feed(k2, n2)
    ensures k1 == k2 && n1 == n2
  {
    FeedHasNul(k1, n1);
    FeedHasNul(k2, n2);
    if n1 != [] {
      var i1, i2 := n1[..|n1| - 1], n2[..|n2| - 1];
      SameTail(Feed(k1, i1), n1[|n1| - 1], Feed(k2, i2), n2[|n2| - 1]);
      FeedInjective(k1, i1, k2, i2);
      assert n1 == i1 + [n1[|n1| - 1]] && n2 == i2 + [n2[|n2| - 1]];
    }
  }

  ghost predicate CleanPrincipal(p: Option<Principal>)
  {
    p.Some? ==> NulFree(p.value.issuer) && NulFree(p.value.subject)
  }

  lemma PrincipalIdInjective(p: Option<Principal>, q: Option<Principal>)
    requires CleanPrincipal(p) && CleanPrincipal(q) && PrincipalId(p) == PrincipalId(q)
    ensures p == q
  {
    if p.Some? && q.Some? {
      SameTail(p.value.issuer, p.value.subject, q.value.issuer, q.value.subject);
    }
  }

  /** No NUL in any identifier that enters a fingerprint. */
  ghost predicate Clean<T>(q: Query<T>)
  {
    && NulFree(q.kind) && CleanPrincipal(q.principal)
    && forall i :: 0 <= i < |q.items| ==> NulFree(q.name(q.items[i]))
  }

  /** A cursor one call hands out carries that call's list, snapshot and caller. */
  lemma MintedCursor<T>(q: Query<T>, raw: string) returns (offset: int)
    requires Paginate(q, raw).Page? && Paginate(q, raw).next != ""
    ensures 0 < offset < |q.items| && Paginate(q, raw).next == q.env.encode(At(q, offset))
  {
    var start := if raw == "" then 0 else q.env.decode(raw).value.offset;
    offset := start + q.size;
  }

  /** A minted cursor is accepted by another call exactly when that call is for the same
      list, the same caller and a snapshot with the same names in the same order. */
  lemma CursorAcceptedExactly<T>(q: Query<T>, raw: string, q': Query<T>)
    requires Decodable(q.env) && CollisionFree(q.env)
    requires q'.env == q.env && q'.size > 0 && Clean(q) && Clean(q')
    requires Paginate(q, raw).Page? && Paginate(q, raw).next != ""
    ensures Paginate(q', Paginate(q, raw).next).Page? <==>
            q.kind == q'.kind && q.principal == q'.principal && Names(q.items, q.name) == Names(q'.items, q'.name)
  {
    var offset := MintedCursor(q, raw);
    assert q.env.decode(q.env.encode(At(q, offset))) == Some(At(q, offset));
    FingerprintsMatchExactly(q, q');
  }

  lemma FingerprintsMatchExactly<T>(q: Query<T>, q': Query<T>)
    requires CollisionFree(q.env) && q'.env == q.env && Clean(q) && Clean(q')
    ensures At(q, 0) == At(q', 0) <==>
            q.kind == q'.kind && q.principal == q'.principal && Names(q.items, q.name) == Names(q'.items, q'.name)
  {
    if At(q, 0) == At(q', 0) {
      FeedInjective(q.kind, Names(q.items, q.name), q'.kind, Names(q'.items, q'.name));
      PrincipalIdInjective(q.principal, q'.principal);
    }
  }

  // ---- whatever a client sends ----

  /** A cursor for this list, snapshot and caller, and an offset inside it. */
  ghost predicate IsFor<T>(q: Query<T>, c: Cursor)
  {
    && c.kind == q.kind && c.gen == q.env.digest(Feed(q.kind, Names(q.items, q.name)))
    && c.principal == q.env.digest(PrincipalId(q.principal)) && 1 <= c.offset <= |q.items|
  }

  /** Without pagination a list is one page, and there is no cursor to come back with. */
  lemma UnpagedExactly<T>(q: Query<T>, raw: string)
    requires q.size <= 0
    ensures raw == "" ==> Paginate(q, raw) == Page(q.items, "")
    ensures raw != "" ==> Paginate(q, raw).BadCursor?
  {
  }

  /** With it, of all the strings a client may send, exactly the empty one and the cursors for
      this list, snapshot and caller get a page: the items from their offset on, as many as fit,
      with a cursor exactly when items are left. */
  lemma PagedExactly<T>(q: Query<T>, raw: string)
    requires q.size >= 1
    ensures var c := q.env.decode(raw);
            Paginate(q, raw).Page? <==> raw == "" || (c.Some? && IsFor(q, c.value))
    ensures Paginate(q, raw).Page? ==>
              var r, start := Paginate(q, raw), if raw == "" then 0 else q.env.decode(raw).value.offset;
              && |r.items| == (if |q.items| - start <= q.size then |q.items| - start else q.size)
              && (forall i :: 0 <= i < |r.items| ==> r.items[i] == q.items[start + i])
              && (if start + q.size >= |q.items| then r.next == ""
                  else r.next == q.env.encode(At(q, start + q.size)))
  {
  }
}
