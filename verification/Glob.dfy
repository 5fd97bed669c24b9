/**
 Name patterns of the policy engine: "*" matches any string, everything else
 matches itself. The engine splits a pattern on "*" once and then places each
 literal part at its leftmost position.
 */
module Glob {

  /** What a pattern means, read one character at a time. */
  ghost predicate Denotes(pattern: string, name: string)
    decreases |pattern|
  {
    if pattern == [] then name == []
    else if pattern[0] == '*' then
      exists k :: 0 <= k <= |name| && Denotes(pattern[1..], name[k..])
    else name != [] && name[0] == pattern[0] && Denotes(pattern[1..], name[1..])
  }

  /** strings.Split with a one-character separator. */
  function Split(s: string, sep: char): (parts: seq<string>)
    ensures |parts| >= 1
    ensures forall i :: 0 <= i < |parts| ==> sep !in parts[i]
  {
    if s == [] then [[]]
    else
      var rest := Split(s[1..], sep);
      if s[0] == sep then [[]] + rest
      else [[s[0]] + rest[0]] + rest[1..]
  }

  lemma {:induction false} SplitWithoutSeparator(s: string, sep: char)
    requires sep !in s
    ensures Split(s, sep) == [s]
  {
    if s != [] {
      SplitWithoutSeparator(s[1..], sep);
      assert s == [s[0]] + s[1..];
    }
  }

  predicate OccursAt(s: string, sub: string, k: int)
  {
    0 <= k && k + |sub| <= |s| && s[k..k + |sub|] == sub
  }

  /** strings.Index: the leftmost occurrence, or -1. */
  method Index(s: string, sub: string) returns (k: int)
    ensures k >= 0 ==> OccursAt(s, sub, k) && forall j :: 0 <= j < k ==> !OccursAt(s, sub, j)
    ensures k < 0 ==> forall j :: !OccursAt(s, sub, j)
  {
    k := 0;
    while k + |sub| <= |s|
      invariant 0 <= k
      invariant forall j :: 0 <= j < k ==> !OccursAt(s, sub, j)
    {
      if s[k..k + |sub|] == sub { return; }
      k := k + 1;
    }
    k := -1;
  }

  predicate HasPrefix(s: string, p: string) { p <= s }

  predicate HasSuffix(s: string, p: string) { |p| <= |s| && s[|s| - |p|..] == p }

  /** The string obtained by putting one gap between each two neighbouring parts. */
  function Weave(parts: seq<string>, gaps: seq<string>): string
    requires |parts| == |gaps| + 1
  {
    if |parts| == 1 then parts[0] else parts[0] + gaps[0] + Weave(parts[1..], gaps[1..])
  }

  ghost predicate WovenWith(parts: seq<string>, gaps: seq<string>, name: string)
  {
    |parts| == |gaps| + 1 && Weave(parts, gaps) == name
  }

  /** name is the literal parts in order with some gaps, possibly empty, between them. */
  ghost predicate Woven(parts: seq<string>, name: string)
    requires |parts| >= 1
  {
    exists gaps: seq<string> :: WovenWith(parts, gaps, name)
  }

  /** name is any string followed by a woven one. */
  ghost predicate WovenAfterGap(parts: seq<string>, name: string)
    requires |parts| >= 1
  {
    exists k :: 0 <= k <= |name| && Woven(parts, name[k..])
  }

  lemma SliceOfSlice<T>(s: seq<T>, a: nat, b: nat)
    requires a + b <= |s|
    ensures s[a..][b..] == s[a + b..]
  {
  }

  lemma HeadAndTail<T>(s: seq<T>, i: nat)
    requires i < |s|
    ensures s[i..] == [s[i]] + s[i + 1..]
  {
  }

  lemma WovenUncons(p: string, rest: seq<string>, name: string)
    requires |rest| >= 1
    requires Woven([p] + rest, name)
    ensures p <= name && WovenAfterGap(rest, name[|p|..])
  {
    var parts := [p] + rest;
    assert parts[1..] == rest;
    var gaps: seq<string> :| WovenWith(parts, gaps, name);
    var tail := Weave(rest, gaps[1..]);
    assert name == p + gaps[0] + tail;
    assert name[|p|..] == gaps[0] + tail;
    assert name[|p|..][|gaps[0]|..] == tail;
    assert WovenWith(rest, gaps[1..], tail);
  }

  lemma WeavePrepend(p: string, rest: seq<string>, gap: string, gaps: seq<string>)
    requires |rest| == |gaps| + 1
    ensures Weave([p] + rest, [gap] + gaps) == p + gap + Weave(rest, gaps)
  {
    assert ([p] + rest)[1..] == rest && ([gap] + gaps)[1..] == gaps;
  }

  lemma WovenPrepend(p: string, rest: seq<string>, name: string)
    requires |rest| >= 1
    requires p <= name && WovenAfterGap(rest, name[|p|..])
    ensures Woven([p] + rest, name)
  {
    var k :| 0 <= k <= |name[|p|..]| && Woven(rest, name[|p|..][k..]);
    WovenPrependAt(p, rest, name, k);
  }

  lemma WovenPrependAt(p: string, rest: seq<string>, name: string, k: nat)
    requires |rest| >= 1 && p <= name && k <= |name[|p|..]|
    requires Woven(rest, name[|p|..][k..])
    ensures Woven([p] + rest, name)
  {
    var gap, tail := name[|p|..][..k], name[|p|..][k..];
    assert name == p + gap + tail;
    var gaps: seq<string> :| WovenWith(rest, gaps, tail);
    WeavePrepend(p, rest, gap, gaps);
    var all := [gap] + gaps;
    assert WovenWith([p] + rest, all, name);
  }

  lemma WovenCons(p: string, rest: seq<string>, name: string)
    requires |rest| >= 1
    ensures Woven([p] + rest, name) <==> p <= name && WovenAfterGap(rest, name[|p|..])
  {
    if Woven([p] + rest, name) { WovenUncons(p, rest, name); }
    if p <= name && WovenAfterGap(rest, name[|p|..]) { WovenPrepend(p, rest, name); }
  }

  /** A longer gap in front keeps the match. */
  lemma WovenAfterGapWidens(parts: seq<string>, name: string, k: nat)
    requires |parts| >= 1 && k <= |name| && WovenAfterGap(parts, name[k..])
    ensures WovenAfterGap(parts, name)
  {
    var j :| 0 <= j <= |name[k..]| && Woven(parts, name[k..][j..]);
    SliceOfSlice(name, k, j);
  }

  lemma LastPartIsSuffix(p: string, name: string)
    ensures WovenAfterGap([p], name) <==> HasSuffix(name, p)
  {
    if WovenAfterGap([p], name) {
      var k :| 0 <= k <= |name| && Woven([p], name[k..]);
      assert name[k..] == p;
    }
    if HasSuffix(name, p) {
      var gaps: seq<string> := [];
      assert WovenWith([p], gaps, name[|name| - |p|..]);
      assert Woven([p], name[|name| - |p|..]);
    }
  }

  lemma LaterOccurrence(p: string, rest: seq<string>, name: string, k: nat, j: nat)
    requires |rest| >= 1 && k <= j <= |name|
    requires Woven([p] + rest, name[j..])
    ensures k + |p| <= |name| && WovenAfterGap(rest, name[k + |p|..])
  {
    WovenUncons(p, rest, name[j..]);
    SliceOfSlice(name, j, |p|);
    WidenTo(rest, name, k + |p|, j + |p|);
  }

  lemma WidenTo(parts: seq<string>, name: string, a: nat, b: nat)
    requires |parts| >= 1 && a <= b <= |name| && WovenAfterGap(parts, name[b..])
    ensures WovenAfterGap(parts, name[a..])
  {
    SliceOfSlice(name, a, b - a);
    WovenAfterGapWidens(parts, name[a..], b - a);
  }

  lemma PrefixOfTail(p: string, name: string, j: nat)
    requires j <= |name|
    ensures p <= name[j..] <==> OccursAt(name, p, j)
  {
    if p <= name[j..] { assert name[j..j + |p|] == name[j..][..|p|] == p; }
    if OccursAt(name, p, j) { assert name[j..][..|p|] == name[j..j + |p|]; }
  }

  /** Nothing is lost by placing a part at its leftmost occurrence. */
  lemma LeftmostIsEnough(p: string, rest: seq<string>, name: string, k: nat)
    requires |rest| >= 1
    requires OccursAt(name, p, k) && forall j :: 0 <= j < k ==> !OccursAt(name, p, j)
    ensures WovenAfterGap([p] + rest, name) <==> WovenAfterGap(rest, name[k + |p|..])
  {
    if WovenAfterGap([p] + rest, name) {
      var j :| 0 <= j <= |name| && Woven([p] + rest, name[j..]);
      WovenUncons(p, rest, name[j..]);
      PrefixOfTail(p, name, j);
      LaterOccurrence(p, rest, name, k, j);
    }
    if WovenAfterGap(rest, name[k + |p|..]) {
      SliceOfSlice(name, k, |p|);
      PrefixOfTail(p, name, k);
      WovenPrepend(p, rest, name[k..]);
    }
  }

  lemma NoOccurrenceNoMatch(p: string, rest: seq<string>, name: string)
    requires |rest| >= 1
    requires forall j :: !OccursAt(name, p, j)
    ensures !WovenAfterGap([p] + rest, name)
  {
    if WovenAfterGap([p] + rest, name) {
      var j :| 0 <= j <= |name| && Woven([p] + rest, name[j..]);
      WovenUncons(p, rest, name[j..]);
      PrefixOfTail(p, name, j);
      assert false;
    }
  }

  lemma SinglePart(p: string, name: string)
    ensures Woven([p], name) <==> p == name
  {
    var gaps: seq<string> := [];
    assert WovenWith([p], gaps, p);
  }

  /** The parts from i on still have to be found in name, after some gap. */
  ghost predicate Remaining(parts: seq<string>, i: nat, name: string)
    requires i < |parts|
  {
    WovenAfterGap(parts[i..], name)
  }

  lemma GreedyStep(parts: seq<string>, i: nat, name: string, idx: int)
    requires i + 1 < |parts|
    requires idx >= 0 ==> OccursAt(name, parts[i], idx) && forall j :: 0 <= j < idx ==> !OccursAt(name, parts[i], j)
    requires idx < 0 ==> forall j :: !OccursAt(name, parts[i], j)
    ensures idx < 0 ==> !Remaining(parts, i, name)
    ensures idx >= 0 ==> (Remaining(parts, i, name) <==> Remaining(parts, i + 1, name[idx + |parts[i]|..]))
  {
    HeadAndTail(parts, i);
    if idx < 0 {
      NoOccurrenceNoMatch(parts[i], parts[i + 1..], name);
    } else {
      LeftmostIsEnough(parts[i], parts[i + 1..], name, idx);
    }
  }

  lemma FirstAndLast(parts: seq<string>, name: string)
    requires |parts| >= 1
    ensures |parts| == 1 ==> (Woven(parts, name) <==> parts[0] == name)
    ensures |parts| > 1 ==> (Woven(parts, name) <==> parts[0] <= name && Remaining(parts, 1, name[|parts[0]|..]))
    ensures Remaining(parts, |parts| - 1, name) <==> HasSuffix(name, parts[|parts| - 1])
  {
    HeadAndTail(parts, 0);
    assert parts[0..] == parts;
    if |parts| == 1 {
      assert parts == [parts[0]];
      SinglePart(parts[0], name);
    } else {
      WovenCons(parts[0], parts[1..], name);
    }
    HeadAndTail(parts, |parts| - 1);
    assert parts[|parts| - 1..] == [parts[|parts| - 1]];
    LastPartIsSuffix(parts[|parts| - 1], name);
  }

  /** glob.match: prefix, then each middle part at its leftmost position, then suffix. */
  method Match(parts: seq<string>, fullName: string) returns (ok: bool)
    requires |parts| >= 1
    ensures ok <==> Woven(parts, fullName)
  {
    FirstAndLast(parts, fullName);
    if |parts| == 1 { return parts[0] == fullName; }
    if !HasPrefix(fullName, parts[0]) { return false; }
    var name := fullName[|parts[0]|..];
    var i := 1;
    while i < |parts| - 1
      invariant 1 <= i < |parts|
      invariant Woven(parts, fullName) <==> Remaining(parts, i, name)
    {
      var idx := Index(name, parts[i]);
      GreedyStep(parts, i, name, idx);
      if idx < 0 { return false; }
      name := name[idx + |parts[i]|..];
      i := i + 1;
    }
    FirstAndLast(parts, name);
    return HasSuffix(name, parts[|parts| - 1]);
  }

  /** Splitting a pattern on "*" keeps its meaning. */
  lemma {:induction false} SplitKeepsMeaning(pattern: string, name: string)
    ensures Woven(Split(pattern, '*'), name) <==> Denotes(pattern, name)
    decreases |pattern|
  {
    var parts := Split(pattern, '*');
    if pattern == [] {
      SinglePart([], name);
    } else {
      var rest := Split(pattern[1..], '*');
      if pattern[0] == '*' {
        WovenCons([], rest, name);
        assert name[0..] == name;
        forall k | 0 <= k <= |name|
          ensures Woven(rest, name[k..]) <==> Denotes(pattern[1..], name[k..])
        {
          SplitKeepsMeaning(pattern[1..], name[k..]);
        }
      } else {
        LiteralHead(pattern[0], rest, name);
        if name != [] { SplitKeepsMeaning(pattern[1..], name[1..]); }
      }
    }
  }

  lemma LiteralHead(c: char, rest: seq<string>, name: string)
    requires |rest| >= 1
    ensures Woven([[c] + rest[0]] + rest[1..], name)
       <==> name != [] && name[0] == c && Woven(rest, name[1..])
  {
    HeadAndTail(rest, 0);
    assert rest[0..] == rest;
    if name != [] { HeadAndTail(name, 0); assert name[0..] == name; }
    if |rest| == 1 {
      assert [[c] + rest[0]] + rest[1..] == [[c] + rest[0]] && rest == [rest[0]];
      SinglePart([c] + rest[0], name);
      if name != [] { SinglePart(rest[0], name[1..]); }
    } else {
      WovenCons([c] + rest[0], rest[1..], name);
      if name != [] {
        WovenCons(rest[0], rest[1..], name[1..]);
        LiteralPrefix(c, rest[0], name);
      }
    }
  }

  lemma LiteralPrefix(c: char, p: string, name: string)
    requires name != []
    ensures [c] + p <= name <==> name[0] == c && p <= name[1..]
    ensures [c] + p <= name ==> name[|[c] + p|..] == name[1..][|p|..]
  {
    if [c] + p <= name {
      assert p == name[1..][..|p|];
      SliceOfSlice(name, 1, |p|);
    }
    if name[0] == c && p <= name[1..] {
      assert name[..1 + |p|] == [c] + p;
    }
  }

  /** compileGlob followed by match decides exactly what the pattern denotes. */
  method GlobMatch(pattern: string, name: string) returns (ok: bool)
    ensures ok <==> Denotes(pattern, name)
  {
    SplitKeepsMeaning(pattern, name);
    ok := Match(Split(pattern, '*'), name);
  }
}
