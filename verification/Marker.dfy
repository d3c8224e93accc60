/**
 Byte strings and the search for a marker in them (`windows(n).position(..)`).

 A byte is a `char`.  The codec only ever compares bytes for equality, so nothing here depends on
 there being 256 of them and every theorem holds in particular for `u8`.
 */
module Marker {
  import opened Wrappers

  type Bytes = seq<char>

  predicate At(s: Bytes, m: Bytes, i: int) {
    0 <= i && i + |m| <= |s| && forall k :: 0 <= k < |m| ==> s[i + k] == m[k]
  }

  ghost predicate Absent(s: Bytes, m: Bytes) {
    forall i :: !At(s, m, i)
  }

  /** `m` is found in `s` at `i` and nowhere before it. */
  ghost predicate FirstAt(s: Bytes, m: Bytes, i: int) {
    At(s, m, i) && forall j :: j < i ==> !At(s, m, j)
  }

  lemma FirstExists(s: Bytes, m: Bytes, i: nat)
    requires At(s, m, i)
    ensures exists k: nat :: FirstAt(s, m, k)
  {
    if j :| j < i && At(s, m, j) {
      FirstExists(s, m, j);
    } else {
      assert FirstAt(s, m, i);
    }
  }

  /** Where `m` is first found in `s`. */
  ghost function Find(s: Bytes, m: Bytes): (r: Option<nat>)
    ensures r.Some? ==> FirstAt(s, m, r.value)
    ensures r.None? ==> Absent(s, m)
  {
    if exists i: nat :: FirstAt(s, m, i) then
      var i: nat :| FirstAt(s, m, i);
      Some(i)
    else
      assert Absent(s, m) by {
        forall i | At(s, m, i)
          ensures false
        {
          FirstExists(s, m, i);
        }
      }
      None
  }

  /** The search itself, window by window from the left. */
  method Position(s: Bytes, m: Bytes) returns (r: Option<nat>)
    requires m != []
    ensures r == Find(s, m)
    ensures r.Some? ==> r.value + |m| <= |s|
  {
    var i := 0;
    while i + |m| <= |s|
      invariant forall j :: j < i ==> !At(s, m, j)
    {
      if s[i..i + |m|] == m {
        FirstIsFound(s, m, i);
        return Some(i);
      }
      i := i + 1;
    }
    return None;
  }

  lemma AtBound(s: Bytes, m: Bytes, i: int)
    requires At(s, m, i)
    ensures 0 <= i <= i + |m| <= |s|
  {
  }

  lemma FirstIsFound(s: Bytes, m: Bytes, i: nat)
    requires FirstAt(s, m, i)
    ensures Find(s, m) == Some(i)
  {
  }

  /** What is inside the first part of a concatenation is found there, and nothing new is. */
  lemma AtPrefix(s: Bytes, t: Bytes, m: Bytes, i: int)
    requires i + |m| <= |s|
    ensures At(s + t, m, i) <==> At(s, m, i)
  {
    if 0 <= i {
      assert (s + t)[i..i + |m|] == s[i..i + |m|];
    }
  }

  lemma AtDrop(s: Bytes, m: Bytes, k: nat, i: nat)
    requires k <= |s|
    ensures At(s[k..], m, i) <==> At(s, m, k + i)
  {
    if k + i + |m| <= |s| {
      assert s[k..][i..i + |m|] == s[k + i..k + i + |m|];
    }
  }

  /** More bytes at the end never move the first marker. */
  lemma FirstAtExtends(s: Bytes, t: Bytes, m: Bytes, i: int)
    requires FirstAt(s, m, i)
    ensures FirstAt(s + t, m, i)
  {
    AtPrefix(s, t, m, i);
    forall j | j < i
      ensures !At(s + t, m, j)
    {
      AtPrefix(s, t, m, j);
    }
  }

  /** Dropping a stretch that holds no start of a marker only shifts the first marker. */
  lemma FirstAtDrop(s: Bytes, m: Bytes, k: nat, i: nat)
    requires k <= |s|
    requires forall j :: 0 <= j < k ==> !At(s, m, j)
    ensures FirstAt(s[k..], m, i) <==> FirstAt(s, m, k + i)
  {
    AtDrop(s, m, k, i);
    forall j: nat
      ensures At(s[k..], m, j) <==> At(s, m, k + j)
    {
      AtDrop(s, m, k, j);
    }
    if FirstAt(s[k..], m, i) {
      forall j | j < k + i
        ensures !At(s, m, j)
      {
        if k <= j {
          assert !At(s[k..], m, j - k);
        }
      }
    }
  }

  function Flatten(parts: seq<Bytes>): Bytes {
    if parts == [] then [] else parts[0] + Flatten(parts[1..])
  }

  lemma {:induction false} FlattenAppend(a: seq<Bytes>, b: seq<Bytes>)
    ensures Flatten(a + b) == Flatten(a) + Flatten(b)
  {
    if a == [] {
      assert a + b == b;
    } else {
      assert (a + b)[1..] == a[1..] + b;
      FlattenAppend(a[1..], b);
    }
  }

  /** The two parts of a concatenation. */
  lemma Halves(a: Bytes, b: Bytes)
    ensures (a + b)[..|a|] == a && (a + b)[|a|..] == b
  {
  }

  lemma ConcatAssociates(a: Bytes, b: Bytes, c: Bytes)
    ensures (a + b) + c == a + (b + c)
  {
  }

  /** No name occurs twice. */
  ghost predicate Distinct(names: seq<Bytes>) {
    forall i, j :: 0 <= i < j < |names| ==> names[i] != names[j]
  }
}
