/**
 The size cap on an upstream response body. For an event stream the count restarts after
 each frame terminator, two newline bytes, which may be cut across two reads.
 */
module CappedBody {
  import opened Sequences

  type Byte = b: int | 0 <= b < 256

  const NEWLINE: Byte := 10

  /** A frame terminator occupies the two bytes before position e. */
  predicate EndsAt(s: seq<Byte>, e: int)
  {
    2 <= e <= |s| && s[e - 2] == NEWLINE && s[e - 1] == NEWLINE
  }

  /** Where the last frame terminator ends, 0 when there is none. */
  function LastEnd(s: seq<Byte>): (e: nat)
    ensures e <= |s|
  {
    if EndsAt(s, |s|) then |s| else if s == [] then 0 else LastEnd(s[..|s| - 1])
  }

  /** Bytes after the last frame terminator. */
  function After(s: seq<Byte>): nat { |s| - LastEnd(s) }

  predicate EndsInNewline(s: seq<Byte>) { s != [] && s[|s| - 1] == NEWLINE }

  /** LastEnd is the greatest terminator position, and 0 exactly when there is none. */
  lemma {:induction false} LastEndIsGreatest(s: seq<Byte>)
    ensures forall e :: EndsAt(s, e) ==> e <= LastEnd(s)
    ensures LastEnd(s) == 0 || EndsAt(s, LastEnd(s))
  {
    if s != [] && !EndsAt(s, |s|) {
      var t := s[..|s| - 1];
      LastEndIsGreatest(t);
      forall e | EndsAt(s, e) ensures e <= LastEnd(s) {
        assert EndsAt(t, e);
      }
    }
  }

  lemma GreatestIsLastEnd(s: seq<Byte>, e: nat)
    requires EndsAt(s, e) && forall d :: EndsAt(s, d) ==> d <= e
    ensures LastEnd(s) == e
  {
    LastEndIsGreatest(s);
  }

  lemma EndsAcrossCut(s: seq<Byte>, c: seq<Byte>, e: int)
    requires c != []
    ensures EndsAt(s + c, e) <==>
            if e <= |s| then EndsAt(s, e)
            else if e == |s| + 1 then EndsInNewline(s) && c[0] == NEWLINE
            else EndsAt(c, e - |s|)
  {
    var t := s + c;
    if 2 <= e <= |t| {
      assert t[e - 1] == if e <= |s| then s[e - 1] else c[e - 1 - |s|];
      assert t[e - 2] == if e - 1 <= |s| then s[e - 2] else c[e - 2 - |s|];
    }
  }

  /** A stream and one more chunk: the last terminator is in the chunk, or straddles the cut,
      or is the one the stream already had. */
  lemma LastEndAcrossCut(s: seq<Byte>, c: seq<Byte>)
    requires c != []
    ensures LastEnd(s + c) ==
            if LastEnd(c) > 0 then |s| + LastEnd(c)
            else if EndsInNewline(s) && c[0] == NEWLINE then |s| + 1
            else LastEnd(s)
  {
    var expected := if LastEnd(c) > 0 then |s| + LastEnd(c)
                    else if EndsInNewline(s) && c[0] == NEWLINE then |s| + 1
                    else LastEnd(s);
    LastEndIsGreatest(s);
    LastEndIsGreatest(c);
    LastEndIsGreatest(s + c);
    EndsAcrossCut(s, c, expected);
    EndsAcrossCut(s, c, LastEnd(s + c));
  }

  /** bytes.LastIndex(chunk, "\n\n"). */
  method LastIndexOfTerminator(chunk: seq<Byte>) returns (i: int)
    ensures i >= 0 ==> LastEnd(chunk) == i + 2
    ensures i < 0 ==> i == -1 && LastEnd(chunk) == 0
  {
    i := |chunk| - 2;
    while i >= 0
      invariant -2 <= i <= |chunk| - 2
      invariant forall e :: EndsAt(chunk, e) ==> e <= i + 2
      decreases i + 2
    {
      if chunk[i] == NEWLINE && chunk[i + 1] == NEWLINE {
        GreatestIsLastEnd(chunk, i + 2);
        return;
      }
      i := i - 1;
    }
    LastEndIsGreatest(chunk);
    i := -1;
  }

  /** What the cap measures of the bytes so far. */
  function Measure(perEvent: bool, s: seq<Byte>): nat { if perEvent then After(s) else |s| }

  /** Read i delivers bytes and leaves the measure over the limit. */
  predicate TripsAt(limit: int, perEvent: bool, chunks: seq<seq<Byte>>, i: nat)
    requires i < |chunks|
  {
    chunks[i] != [] && Measure(perEvent, Flatten(chunks[..i + 1])) > limit
  }

  ghost predicate Tripped(limit: int, perEvent: bool, chunks: seq<seq<Byte>>)
  {
    exists i :: 0 <= i < |chunks| && TripsAt(limit, perEvent, chunks, i)
  }

  /** What the caller is handed over these reads: every chunk until a read trips the cap. */
  ghost function Handed(limit: int, perEvent: bool, chunks: seq<seq<Byte>>): seq<Byte>
  {
    if chunks == [] then []
    else
      Handed(limit, perEvent, chunks[..|chunks| - 1]) +
      if Tripped(limit, perEvent, chunks) then [] else chunks[|chunks| - 1]
  }

  class SizeCappedBody {
    const limit: int
    const perEvent: bool
    var n: int
    var tailNewline: bool
    var capped: bool
    var closed: bool    // the wrapped body was closed
    var reports: nat    // calls of the onCapped callback
    ghost var chunks: seq<seq<Byte>>

    ghost predicate Valid()
      reads this
    {
      && n == Measure(perEvent, Flatten(chunks))
      && (perEvent ==> tailNewline == EndsInNewline(Flatten(chunks)))
      && capped == Tripped(limit, perEvent, chunks)
      && closed == capped && reports == if capped then 1 else 0
    }

    constructor (limit: int, perEvent: bool)
      ensures Valid() && chunks == [] && this.limit == limit && this.perEvent == perEvent
    {
      this.limit, this.perEvent := limit, perEvent;
      n, tailNewline, capped, closed, reports, chunks := 0, false, false, false, 0, [];
    }

    /** However the stream is cut, n is the bytes after the last terminator of all of it. */
    method CountEvents(ghost stream: seq<Byte>, chunk: seq<Byte>)
      requires perEvent && n == After(stream) && tailNewline == EndsInNewline(stream)
      modifies this`n, this`tailNewline
      ensures n == After(stream + chunk) && tailNewline == EndsInNewline(stream + chunk)
    {
      if |chunk| == 0 {
        assert stream + chunk == stream;
        return;
      }
      LastEndAcrossCut(stream, chunk);
      var i := LastIndexOfTerminator(chunk);
      if i >= 0 {
        n := |chunk| - (i + 2);
      } else if tailNewline && chunk[0] == NEWLINE {
        n := |chunk| - 1;
      } else {
        n := n + |chunk|;
      }
      tailNewline := chunk[|chunk| - 1] == NEWLINE;
    }

    /** The count after a chunk, in either mode. */
    method Count(ghost stream: seq<Byte>, chunk: seq<Byte>)
      requires n == Measure(perEvent, stream) && (perEvent ==> tailNewline == EndsInNewline(stream))
      modifies this`n, this`tailNewline
      ensures n == Measure(perEvent, stream + chunk) && (perEvent ==> tailNewline == EndsInNewline(stream + chunk))
    {
      if perEvent {
        CountEvents(stream, chunk);
      } else {
        n := n + |chunk|;
      }
    }

    /** One Read: chunk and readFailed are what the wrapped reader returned. */
    method Read(chunk: seq<Byte>, readFailed: bool) returns (out: seq<Byte>, failed: bool)
      requires Valid()
      modifies this
      ensures Valid() && chunks == old(chunks) + [chunk]
      ensures out == if capped then [] else chunk
      ensures failed == (capped || readFailed)
      ensures Handed(limit, perEvent, chunks) == old(Handed(limit, perEvent, chunks)) + out
    {
      ghost var stream := Flatten(chunks);
      SnocChunk(limit, perEvent, chunks, chunk);
      assert |chunk| == 0 ==> stream + chunk == stream;
      if |chunk| > 0 {
        Count(stream, chunk);
        if n > limit && !capped { capped, reports, closed := true, reports + 1, true; }
      }
      chunks := chunks + [chunk];
      if capped { return [], true; }
      return chunk, readFailed;
    }
  }

  lemma TripsAtSnoc(limit: int, perEvent: bool, chunks: seq<seq<Byte>>, chunk: seq<Byte>, i: nat)
    requires i <= |chunks|
    ensures TripsAt(limit, perEvent, chunks + [chunk], i) <==>
            if i < |chunks| then TripsAt(limit, perEvent, chunks, i)
            else chunk != [] && Measure(perEvent, Flatten(chunks) + chunk) > limit
  {
    var all := chunks + [chunk];
    if i < |chunks| {
      assert all[..i + 1] == chunks[..i + 1];
    } else {
      assert all[..i + 1] == all;
      FlattenSnoc(chunks, chunk);
    }
  }

  lemma TrippedSnoc(limit: int, perEvent: bool, chunks: seq<seq<Byte>>, chunk: seq<Byte>)
    ensures Tripped(limit, perEvent, chunks + [chunk]) <==>
            Tripped(limit, perEvent, chunks) ||
            (chunk != [] && Measure(perEvent, Flatten(chunks) + chunk) > limit)
  {
    var all := chunks + [chunk];
    TripsAtSnoc(limit, perEvent, chunks, chunk, |chunks|);
    if Tripped(limit, perEvent, all) {
      var i :| 0 <= i < |all| && TripsAt(limit, perEvent, all, i);
      TripsAtSnoc(limit, perEvent, chunks, chunk, i);
    }
    if Tripped(limit, perEvent, chunks) {
      var i :| 0 <= i < |chunks| && TripsAt(limit, perEvent, chunks, i);
      TripsAtSnoc(limit, perEvent, chunks, chunk, i);
    }
  }

  lemma SnocChunk(limit: int, perEvent: bool, chunks: seq<seq<Byte>>, chunk: seq<Byte>)
    ensures Flatten(chunks + [chunk]) == Flatten(chunks) + chunk
    ensures Tripped(limit, perEvent, chunks + [chunk]) <==>
            Tripped(limit, perEvent, chunks) ||
            (chunk != [] && Measure(perEvent, Flatten(chunks) + chunk) > limit)
    ensures Handed(limit, perEvent, chunks + [chunk]) ==
            Handed(limit, perEvent, chunks) +
            if Tripped(limit, perEvent, chunks + [chunk]) then [] else chunk
  {
    FlattenSnoc(chunks, chunk);
    TrippedSnoc(limit, perEvent, chunks, chunk);
    assert (chunks + [chunk])[..|chunks|] == chunks;
  }

  lemma TrippedStays(limit: int, perEvent: bool, chunks: seq<seq<Byte>>)
    requires chunks != [] && Tripped(limit, perEvent, chunks[..|chunks| - 1])
    ensures Tripped(limit, perEvent, chunks)
  {
    var init := chunks[..|chunks| - 1];
    assert init + [chunks[|chunks| - 1]] == chunks;
    SnocChunk(limit, perEvent, init, chunks[|chunks| - 1]);
  }

  /** Until the cap trips the caller has everything; afterwards it has what it had. */
  lemma {:induction false} HandedIsPrefixBeforeTrip(limit: int, perEvent: bool, chunks: seq<seq<Byte>>)
    ensures !Tripped(limit, perEvent, chunks) ==> Handed(limit, perEvent, chunks) == Flatten(chunks)
    ensures Handed(limit, perEvent, chunks) <= Flatten(chunks)
    ensures chunks != [] && Tripped(limit, perEvent, chunks) ==>
            Handed(limit, perEvent, chunks) == Handed(limit, perEvent, chunks[..|chunks| - 1])
  {
    if chunks != [] {
      var init := chunks[..|chunks| - 1];
      HandedIsPrefixBeforeTrip(limit, perEvent, init);
      if Tripped(limit, perEvent, init) { TrippedStays(limit, perEvent, chunks); }
      assert Handed(limit, perEvent, init) + [] == Handed(limit, perEvent, init);
    }
  }

  /** A whole body: over every run of reads the caller is handed at most limit bytes, and
      the cap has tripped exactly when the upstream sent more than that. */
  lemma {:induction false} WholeBodyBound(limit: int, chunks: seq<seq<Byte>>)
    requires limit >= 0
    ensures |Handed(limit, false, chunks)| <= limit
    ensures Tripped(limit, false, chunks) <==> |Flatten(chunks)| > limit
  {
    if chunks != [] {
      var init, last := chunks[..|chunks| - 1], chunks[|chunks| - 1];
      WholeBodyBound(limit, init);
      HandedIsPrefixBeforeTrip(limit, false, init);
      assert init + [last] == chunks;
      SnocChunk(limit, false, init, last);
    }
  }

  /** Where read i ends in the stream. */
  function End(chunks: seq<seq<Byte>>, i: nat): nat
    requires i < |chunks|
  {
    |Flatten(chunks[..i + 1])|
  }

  /** No terminator ends between a and b, and a is where the stream starts or one ends. */
  ghost predicate IsEvent(s: seq<Byte>, a: nat, b: nat)
  {
    a < b <= |s| && (a == 0 || EndsAt(s, a)) && forall e :: EndsAt(s, e) ==> e <= a || b <= e
  }

  lemma InsideEvent(s: seq<Byte>, a: nat, b: nat, p: nat)
    requires IsEvent(s, a, b) && a <= p < b
    ensures After(s[..p]) == p - a
  {
    var t := s[..p];
    LastEndIsGreatest(t);
    forall e | EndsAt(t, e) ensures e <= a {
      assert EndsAt(s, e);
    }
    if a > 0 { assert EndsAt(t, a); }
  }

  lemma TripsInside(limit: nat, chunks: seq<seq<Byte>>, a: nat, b: nat, i: nat)
    requires IsEvent(Flatten(chunks), a, b) && i < |chunks| && a <= End(chunks, i) < b
    ensures TripsAt(limit, true, chunks, i) <==> chunks[i] != [] && a + limit < End(chunks, i)
  {
    FlattenPrefix(chunks, i + 1);
    InsideEvent(Flatten(chunks), a, b, End(chunks, i));
    assert Flatten(chunks)[..End(chunks, i)] == Flatten(chunks[..i + 1]);
  }

  /** Some read that ends inside the event trips the cap. */
  ghost predicate Caught(limit: nat, chunks: seq<seq<Byte>>, a: nat, b: nat)
  {
    exists i :: 0 <= i < |chunks| && a <= End(chunks, i) < b && TripsAt(limit, true, chunks, i)
  }

  /** Over every way of cutting the stream, an event is caught exactly when some read that
      delivers bytes ends inside it with more than limit of its bytes in. */
  lemma EventCaughtExactly(limit: nat, chunks: seq<seq<Byte>>, a: nat, b: nat)
    requires IsEvent(Flatten(chunks), a, b)
    ensures Caught(limit, chunks, a, b) <==>
            exists i :: 0 <= i < |chunks| && chunks[i] != [] && a + limit < End(chunks, i) < b
  {
    forall i | 0 <= i < |chunks| && a <= End(chunks, i) < b
      ensures TripsAt(limit, true, chunks, i) <==> chunks[i] != [] && a + limit < End(chunks, i)
    {
      TripsInside(limit, chunks, a, b, i);
    }
  }

  /** An event longer than the limit that arrives in one read with its terminator passes. */
  lemma OversizedEventInOneReadPasses(limit: nat, event: seq<Byte>)
    requires |event| > limit && IsEvent(event + [NEWLINE, NEWLINE], 0, |event| + 2)
    ensures var chunk := event + [NEWLINE, NEWLINE];
            |chunk| > limit && !Tripped(limit, true, [chunk]) && Handed(limit, true, [chunk]) == chunk
  {
    var chunk := event + [NEWLINE, NEWLINE];
    assert EndsAt(chunk, |chunk|);
    assert [] + [chunk] == [chunk];
    assert Flatten([]) + chunk == chunk;
    SnocChunk(limit, true, [], chunk);
  }
}
