/**
 Facts about sequences that several models need.
 */
module Sequences {

  function Flatten<T>(parts: seq<seq<T>>): seq<T>
  {
    if parts == [] then [] else Flatten(parts[..|parts| - 1]) + parts[|parts| - 1]
  }

  lemma FlattenSnoc<T>(parts: seq<seq<T>>, part: seq<T>)
    ensures Flatten(parts + [part]) == Flatten(parts) + part
  {
    assert (parts + [part])[..|parts|] == parts;
  }

  lemma {:induction false} FlattenPrefix<T>(parts: seq<seq<T>>, i: nat)
    requires i <= |parts|
    ensures Flatten(parts[..i]) <= Flatten(parts)
  {
    if i == |parts| {
      assert parts[..i] == parts;
    } else {
      var init := parts[..|parts| - 1];
      assert init[..i] == parts[..i];
      FlattenPrefix(init, i);
    }
  }

  lemma SplitLast<T>(s: seq<T>)
    requires s != []
    ensures s[..|s| - 1] + [s[|s| - 1]] == s
  {
  }

  lemma SplitAt<T>(s: seq<T>, k: nat)
    requires k < |s|
    ensures s[..k] + [s[k]] + s[k + 1..] == s
    ensures s[..k] + ([s[k]] + s[k + 1..]) == s
  {
  }
}
