/**
 How the shared list cache names things in Redis: key families, and the spelling of generation
 and data keys.
 */
module CacheKeys {

  const SLASH := '/'
  const COLON := ':'

  /** Position of the first slash, or the length. */
  function FirstSlash(s: string): (i: nat)
    ensures i <= |s| && SLASH !in s[..i]
    ensures i < |s| ==> s[i] == SLASH
  {
    if s == [] || s[0] == SLASH then 0
    else
      var i := FirstSlash(s[1..]) + 1;
      assert s[..i] == [s[0]] + s[1..][..i - 1];
      i
  }

  function Family(key: string): string { key[..FirstSlash(key)] }

  lemma FirstSlashIs(s: string, i: nat)
    requires i <= |s| && SLASH !in s[..i] && (i < |s| ==> s[i] == SLASH)
    ensures FirstSlash(s) == i
  {
    NoSlashBefore(s, i);
    NoSlashBefore(s, FirstSlash(s));
  }

  lemma NoSlashBefore(s: string, i: nat)
    requires i <= |s|
    ensures SLASH !in s[..i] <==> forall k :: 0 <= k < i ==> s[k] != SLASH
  {
    forall k | 0 <= k < i ensures s[..i][k] == s[k] {}
  }

  method ComputeFamily(key: string) returns (family: string)
    ensures family == Family(key)
  {
    for i := 0 to |key|
      invariant SLASH !in key[..i]
    {
      if key[i] == SLASH {
        FirstSlashIs(key, i);
        return key[..i];
      }
      assert key[..i + 1] == key[..i] + [key[i]];
    }
    FirstSlashIs(key, |key|);
    return key;
  }

  /** Invalidating a family by its own name or by any of its keys is the same. */
  lemma FamilyIsItsOwn(key: string)
    ensures Family(Family(key)) == Family(key)
  {
    FirstSlashIs(Family(key), |Family(key)|);
  }

  function Digit(d: nat): char
    requires d < 10
  {
    "0123456789"[d]
  }

  function Digits(n: nat): string
  {
    if n < 10 then [Digit(n)] else Digits(n / 10) + [Digit(n % 10)]
  }

  lemma {:induction false} DigitsArePlain(n: nat)
    ensures Digits(n) != [] && COLON !in Digits(n) && SLASH !in Digits(n)
  {
    if n >= 10 { DigitsArePlain(n / 10); }
  }

  lemma SnocInjective(a: string, x: char, b: string, y: char)
    requires a + [x] == b + [y]
    ensures a == b && x == y
  {
    var s := a + [x];
    assert a == s[..|s| - 1] && b == s[..|s| - 1] && x == s[|s| - 1] && y == s[|s| - 1];
  }

  /** A number's decimal spelling, split before its last digit. */
  lemma DigitsSplit(n: nat)
    ensures Digits(n) == (if n < 10 then [] else Digits(n / 10)) + [Digit(n % 10)]
    ensures n >= 10 ==> Digits(n / 10) != []
  {
    if n >= 10 { DigitsArePlain(n / 10); }
  }

  lemma DigitInjective(d: nat, e: nat)
    requires d < 10 && e < 10 && Digit(d) == Digit(e)
    ensures d == e
  {
  }

  lemma {:induction false} DigitsInjective(m: nat, n: nat)
    requires Digits(m) == Digits(n)
    ensures m == n
  {
    DigitsSplit(m);
    DigitsSplit(n);
    var a, b := if m < 10 then [] else Digits(m / 10), if n < 10 then [] else Digits(n / 10);
    SnocInjective(a, Digit(m % 10), b, Digit(n % 10));
    DigitInjective(m % 10, n % 10);
    if m >= 10 && n >= 10 { DigitsInjective(m / 10, n / 10); }
  }

  /** The part of a data key after its scope. */
  function Body(gen: nat, key: string): string
  {
    Family(key) + [COLON] + Digits(gen) + [COLON] + key
  }

  function DataKey(scope: string, gen: nat, key: string): string
  {
    "fold:cache:" + scope + ":" + Body(gen, key)
  }

  function GenKey(scope: string, family: string): string
  {
    "fold:cache:" + scope + ":" + ("gen:" + family)
  }

  /** Three parts with a colon after the first and the second. */
  lemma Parts(f: string, d: string, k: string)
    ensures var b, n := f + [COLON] + d + [COLON] + k, |f| + |d| + 2;
            && |b| == n + |k|
            && b[..|f|] == f && b[|f|] == COLON && b[|f| + 1..|f| + 1 + |d|] == d && b[n..] == k
            && b[..n] == f + [COLON] + d + [COLON]
  {
  }

  lemma PartsAt(f: string, d: string, k: string, i: nat)
    requires |f| < i <= |f| + |d|
    ensures var b := f + [COLON] + d + [COLON] + k; i < |b| && b[i] in d
  {
    var b := f + [COLON] + d + [COLON] + k;
    assert b[i] == d[i - |f| - 1];
  }

  lemma BodyParts(gen: nat, key: string)
    ensures var b, n, d := Body(gen, key), |Family(key)|, |Digits(gen)|;
            && |b| == n + d + 2 + |key|
            && b[..n] == Family(key) && b[n] == COLON && b[n + 1..n + 1 + d] == Digits(gen) && b[n + d + 2..] == key
            && b[..n + d + 2] == Family(key) + [COLON] + Digits(gen) + [COLON]
  {
    Parts(Family(key), Digits(gen), key);
  }

  /** A string whose first slash comes after a slash-free head. */
  lemma SlashAfterHead(head: string, key: string)
    requires SLASH !in head
    ensures FirstSlash(head + key) == |head| + |Family(key)|
  {
    var b, f := head + key, Family(key);
    var i := |head| + |f|;
    assert b[..i] == head + f;
    if i < |b| { assert b[i] == key[|f|]; }
    FirstSlashIs(b, i);
  }

  lemma BodyFirstSlash(gen: nat, key: string)
    ensures FirstSlash(Body(gen, key)) == 2 * |Family(key)| + |Digits(gen)| + 2
  {
    DigitsArePlain(gen);
    SlashAfterHead(Family(key) + [COLON] + Digits(gen) + [COLON], key);
  }

  lemma DigitsAreNoColon(gen: nat, key: string, i: nat)
    requires |Family(key)| < i <= |Family(key)| + |Digits(gen)|
    ensures i < |Body(gen, key)| && Body(gen, key)[i] != COLON
  {
    DigitsArePlain(gen);
    PartsAt(Family(key), Digits(gen), key, i);
  }

  lemma ShorterFamilyClashes(g1: nat, k1: string, g2: nat, k2: string)
    requires Body(g1, k1) == Body(g2, k2)
    ensures |Family(k1)| >= |Family(k2)|
  {
    BodyFirstSlash(g1, k1);
    BodyFirstSlash(g2, k2);
    BodyParts(g2, k2);
    if |Family(k1)| < |Family(k2)| { DigitsAreNoColon(g1, k1, |Family(k2)|); }
  }

  lemma BodiesDistinct(g1: nat, k1: string, g2: nat, k2: string)
    requires Body(g1, k1) == Body(g2, k2)
    ensures g1 == g2 && k1 == k2
  {
    ShorterFamilyClashes(g1, k1, g2, k2);
    ShorterFamilyClashes(g2, k2, g1, k1);
    BodyFirstSlash(g1, k1);
    BodyFirstSlash(g2, k2);
    BodyParts(g1, k1);
    BodyParts(g2, k2);
    DigitsInjective(g1, g2);
  }

  /** Distinct generations or keys of one scope never share a Redis key. */
  lemma DataKeysDistinct(scope: string, g1: nat, k1: string, g2: nat, k2: string)
    requires DataKey(scope, g1, k1) == DataKey(scope, g2, k2)
    ensures g1 == g2 && k1 == k2
  {
    PrefixedBySame("fold:cache:" + scope + ":", Body(g1, k1), Body(g2, k2));
    BodiesDistinct(g1, k1, g2, k2);
  }

  lemma PrefixedBySame(p: string, x: string, y: string)
    ensures p + x == p + y <==> x == y
  {
    assert (p + x)[|p|..] == x && (p + y)[|p|..] == y;
  }

  /** Whether a string starts with "gen:" is decided by what precedes its first colons. */
  lemma ColonStarts(f: string, rest: string)
    ensures "gen:" <= f + ":" + rest <==> "gen:" <= f + ":"
  {
    var b := f + ":" + rest;
    if |f| < 3 {
      assert b[|f|] == COLON;
      assert "gen:"[|f|] != COLON;
    } else {
      assert b[..4] == (f + ":")[..4];
    }
  }

  lemma FamilyColonStarts(gen: nat, key: string)
    ensures "gen:" <= Body(gen, key) <==> "gen:" <= Family(key) + ":"
  {
    ColonStarts(Family(key), Digits(gen) + [COLON] + key);
    assert Body(gen, key) == Family(key) + ":" + (Digits(gen) + [COLON] + key);
  }

  lemma SlashFreeBody(gen: nat, key: string)
    ensures SLASH !in Body(gen, key) <==> Family(key) == key
  {
    var b := Body(gen, key);
    BodyFirstSlash(gen, key);
    BodyParts(gen, key);
    assert b[..|b|] == b;
    if SLASH !in b { FirstSlashIs(b, |b|); }
  }

  /** A data key is also the generation key of some family exactly when the data key's own
      family is "gen", or starts with "gen:", and the key is its family's bare name. */
  lemma GenKeyClashExactly(scope: string, gen: nat, key: string)
    ensures (exists family :: SLASH !in family && GenKey(scope, family) == DataKey(scope, gen, key)) <==>
            "gen:" <= Family(key) + ":" && Family(key) == key
  {
    var p := "fold:cache:" + scope + ":";
    var b := Body(gen, key);
    FamilyColonStarts(gen, key);
    SlashFreeBody(gen, key);
    if family :| SLASH !in family && GenKey(scope, family) == DataKey(scope, gen, key) {
      PrefixedBySame(p, "gen:" + family, b);
    }
    if "gen:" <= b && SLASH !in b {
      assert b == "gen:" + b[4..];
      assert SLASH !in b[4..];
      assert GenKey(scope, b[4..]) == DataKey(scope, gen, key);
    }
  }
}
