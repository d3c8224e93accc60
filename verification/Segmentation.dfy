/**
 How a stream is cut into reads does not matter: under any two segmentations of the same bytes the decoder
 succeeds alike, then with the same events and the same residual buffer, or fails alike with the same error.
 What reached the caller before an error, and only that, depends on the reads.
 */
module Segmentation {
  import opened Wrappers
  import opened Marker
  import opened Decoder

  /** A decoder fed segment by segment, until the first error. `delivered` is what its caller received. */
  datatype Fed = Fed(delivered: seq<Bytes>, verdict: Verdict)

  ghost function Feed(buffer: Bytes, segments: seq<Bytes>, limit: nat, valid: Bytes -> bool): Fed
    decreases |segments|
  {
    if segments == [] then Fed([], More(buffer))
    else
      var d := Decode(buffer + segments[0], limit, valid);
      if d.verdict.Failed? then Fed([], d.verdict)
      else
        var later := Feed(d.verdict.rest, segments[1..], limit, valid);
        Fed(d.events + later.delivered, later.verdict)
  }

  /** Bytes before the first `<event` do not matter, as long as five of them stay. */
  lemma SkipGap(s: Bytes, k: nat, limit: nat, valid: Bytes -> bool)
    requires k <= |s|
    requires forall j :: 0 <= j < k ==> !At(s, START, j)
    requires k == 0 || |s| - k >= 5 || !Absent(s, START)
    ensures Next(s[k..], limit, valid) == Next(s, limit, valid)
  {
    match Find(s[k..], START) {
      case Some(i) =>
        FirstAtDrop(s, START, k, i);
        FirstIsFound(s, START, k + i);
        hide At;
        assert s[k..][i..] == s[k + i..];
      case None =>
        AbsentBehind(s, START, k);
        hide At;
        assert LastFive(s[k..]) == LastFive(s);
    }
  }

  /** No marker starts before `k`, and there is none behind. */
  lemma AbsentBehind(s: Bytes, m: Bytes, k: nat)
    requires k <= |s| && (forall j :: 0 <= j < k ==> !At(s, m, j)) && Absent(s[k..], m)
    ensures Absent(s, m)
  {
    forall j: nat
      ensures !At(s, m, j)
    {
      if j >= k {
        AtDrop(s, m, k, j - k);
      }
    }
  }

  /** What the loop does in `a` it does in `a + b`; where it waits, `b` is all that is missing. */
  ghost predicate TurnExtends(a: Bytes, b: Bytes, limit: nat, valid: Bytes -> bool) {
    var extended := Next(a + b, limit, valid);
    match Next(a, limit, valid)
    case Cut(frame, rest) => extended == Cut(frame, rest + b)
    case Stop(More(rest)) => extended == Next(rest + b, limit, valid)
    case Stop(Failed(error, _)) =>
      extended.Stop? && extended.verdict.Failed? && extended.verdict.error == error
  }

  lemma TurnExtendsInGap(a: Bytes, b: Bytes, limit: nat, valid: Bytes -> bool)
    requires Absent(a, START)
    ensures TurnExtends(a, b, limit, valid)
  {
    var k := |a| - |LastFive(a)|;
    forall j | 0 <= j < k
      ensures !At(a + b, START, j)
    {
      AtPrefix(a, b, START, j);
    }
    assert (a + b)[k..] == LastFive(a) + b;
    SkipGap(a + b, k, limit, valid);
  }

  /** The limit is hit by an unfinished frame only if it is hit by the frame that finishes it. */
  lemma TurnExtendsInFrame(a: Bytes, b: Bytes, start: nat, limit: nat, valid: Bytes -> bool)
    requires FirstAt(a, START, start) && Absent(a[start..], END)
    ensures TurnExtends(a, b, limit, valid)
  {
    var frame := a[start..];
    FirstIsFound(a, START, start);
    FirstAtExtends(a, b, START, start);
    FirstIsFound(a + b, START, start);
    assert (a + b)[start..] == frame + b;
    var found := Find(frame + b, END);
    if |frame| <= limit {
      SkipGap(a + b, start, limit, valid);
    } else if found.Some? && found.value + |END| <= |frame| {
      AtPrefix(frame, b, END, found.value);
    }
  }

  lemma NextExtends(a: Bytes, b: Bytes, limit: nat, valid: Bytes -> bool)
    ensures TurnExtends(a, b, limit, valid)
  {
    match Find(a, START)
    case None => TurnExtendsInGap(a, b, limit, valid);
    case Some(start) =>
      var frame := a[start..];
      match Find(frame, END)
      case None => TurnExtendsInFrame(a, b, start, limit, valid);
      case Some(at) =>
        FirstAtExtends(a, b, START, start);
        FirstIsFound(a + b, START, start);
        assert (a + b)[start..] == frame + b;
        FirstAtExtends(frame, b, END, at);
        FirstIsFound(frame + b, END, at);
        var end := at + |END|;
        assert (frame + b)[..end] == frame[..end];
        assert (frame + b)[end..] == frame[end..] + b;
  }

  /** `whole` is what `d` becomes when `b` arrives after it. */
  ghost predicate Continues(d: Decoded, b: Bytes, whole: Decoded, limit: nat, valid: Bytes -> bool) {
    match d.verdict
    case More(rest) =>
      var later := Decode(rest + b, limit, valid);
      whole == Decoded(d.events + later.events, later.verdict)
    case Failed(error, _) =>
      whole.events == d.events && whole.verdict.Failed? && whole.verdict.error == error
  }

  /**
   The heart of the codec: `push(a + b)` is `push(a)` followed by `push(b)`.  It fails exactly when
   one of the two does, with the same error, after the same events.
   */
  lemma {:induction false} DecodeSplit(a: Bytes, b: Bytes, limit: nat, valid: Bytes -> bool)
    ensures Continues(Decode(a, limit, valid), b, Decode(a + b, limit, valid), limit, valid)
    decreases |a|
  {
    hide Next, At;
    NextExtends(a, b, limit, valid);
    match Next(a, limit, valid)
    case Stop(verdict) =>
      if verdict.More? {
        var later := Decode(verdict.rest + b, limit, valid);
        assert [] + later.events == later.events;
      }
    case Cut(frame, rest) =>
      var d := Decode(rest, limit, valid);
      DecodeSplit(rest, b, limit, valid);
      if d.verdict.More? {
        var later := Decode(d.verdict.rest + b, limit, valid);
        assert [frame] + (d.events + later.events) == ([frame] + d.events) + later.events;
      }
  }

  /**
   Any starting buffer, any segments: the decoder ends as it would after one read of everything.
   */
  lemma {:induction false} FeedIsDecode(buffer: Bytes, segments: seq<Bytes>, limit: nat, valid: Bytes -> bool)
    requires segments != [] || Settled(buffer, limit, valid)
    ensures var fed := Feed(buffer, segments, limit, valid);
      var whole := Decode(buffer + Flatten(segments), limit, valid);
      && fed.verdict.More? == whole.verdict.More?
      && (fed.verdict.More? ==> fed == Fed(whole.events, whole.verdict))
      && (fed.verdict.Failed? ==> fed.verdict.error == whole.verdict.error && fed.delivered <= whole.events)
    decreases |segments|
  {
    if segments == [] {
      assert buffer + [] == buffer;
    } else {
      var d := Decode(buffer + segments[0], limit, valid);
      DecodeSplit(buffer + segments[0], Flatten(segments[1..]), limit, valid);
      assert buffer + Flatten(segments) == buffer + segments[0] + Flatten(segments[1..]);
      if d.verdict.More? {
        RestIsSettled(buffer + segments[0], limit, valid);
        FeedIsDecode(d.verdict.rest, segments[1..], limit, valid);
      }
    }
  }

  /** A buffer that a push can leave behind: decoding it again finds nothing to do. */
  ghost predicate Settled(buffer: Bytes, limit: nat, valid: Bytes -> bool) {
    Decode(buffer, limit, valid) == Decoded([], More(buffer))
  }

  lemma {:induction false} RestIsSettled(s: Bytes, limit: nat, valid: Bytes -> bool)
    requires Decode(s, limit, valid).verdict.More?
    ensures Settled(Decode(s, limit, valid).verdict.rest, limit, valid)
    decreases |s|
  {
    match Next(s, limit, valid)
    case Stop(verdict) =>
      NextExtends(s, [], limit, valid);
      assert s + [] == s && verdict.rest + [] == verdict.rest;
    case Cut(_, rest) => RestIsSettled(rest, limit, valid);
  }

  lemma SplitFirst(segments: seq<Bytes>, n: nat)
    requires n < |segments|
    ensures Flatten(segments[..n + 1]) == segments[0] + Flatten(segments[1..][..n])
  {
    assert segments[..n + 1] == [segments[0]] + segments[1..][..n];
  }

  /**
   What reaches the caller before an error does depend on the reads: it is the events of the pushes before
   the first that fails, and `n` of them succeed.
   */
  lemma {:induction false} DeliveredBeforeError(buffer: Bytes, segments: seq<Bytes>, limit: nat, valid: Bytes -> bool)
    returns (n: nat)
    requires Settled(buffer, limit, valid)
    ensures n <= |segments|
    ensures var before := Decode(buffer + Flatten(segments[..n]), limit, valid);
      before.verdict.More? && before.events == Feed(buffer, segments, limit, valid).delivered
    ensures Feed(buffer, segments, limit, valid).verdict.Failed? <==> n < |segments|
    ensures n < |segments| ==> Decode(buffer + Flatten(segments[..n + 1]), limit, valid).verdict.Failed?
    decreases |segments|
  {
    hide Next, At;
    n := 0;
    assert buffer + [] == buffer && segments[..0] == [];
    if segments != [] {
      var first := buffer + segments[0];
      var d := Decode(first, limit, valid);
      if d.verdict.Failed? {
        SplitFirst(segments, 0);
        assert segments[1..][..0] == [] && segments[0] + [] == segments[0];
      } else {
        RestIsSettled(first, limit, valid);
        var m := DeliveredBeforeError(d.verdict.rest, segments[1..], limit, valid);
        ContinuesWith(buffer, segments, m, limit, valid);
        if m < |segments| - 1 {
          ContinuesWith(buffer, segments, m + 1, limit, valid);
        }
        n := m + 1;
      }
    }
  }

  /** Reading on behind the first segment. */
  lemma ContinuesWith(buffer: Bytes, segments: seq<Bytes>, m: nat, limit: nat, valid: Bytes -> bool)
    requires m < |segments| && Decode(buffer + segments[0], limit, valid).verdict.More?
    ensures var d := Decode(buffer + segments[0], limit, valid);
      Continues(d, Flatten(segments[1..][..m]), Decode(buffer + Flatten(segments[..m + 1]), limit, valid), limit, valid)
  {
    hide Decode, Continues;
    SplitFirst(segments, m);
    DecodeSplit(buffer + segments[0], Flatten(segments[1..][..m]), limit, valid);
    assert buffer + (segments[0] + Flatten(segments[1..][..m])) == buffer + segments[0] + Flatten(segments[1..][..m]);
  }

  /** The push after `n` others, read as part of the whole stream. */
  lemma WholeStream(buffer: Bytes, segments: seq<Bytes>, n: nat, limit: nat, valid: Bytes -> bool)
    requires n < |segments| && Decode(buffer + Flatten(segments[..n]), limit, valid).verdict.More?
    requires Decode(buffer + Flatten(segments[..n + 1]), limit, valid).verdict.Failed?
    ensures var before := Decode(buffer + Flatten(segments[..n]), limit, valid);
      Decode(buffer + Flatten(segments), limit, valid).events ==
      before.events + Decode(before.verdict.rest + segments[n], limit, valid).events
  {
    hide Decode, Next, At;
    var pre, upTo, after := Flatten(segments[..n]), Flatten(segments[..n + 1]), Flatten(segments[n + 1..]);
    assert segments[..n + 1] == segments[..n] + [segments[n]];
    FlattenAppend(segments[..n], [segments[n]]);
    FlattenOne(segments[n]);
    assert segments == segments[..n + 1] + segments[n + 1..];
    FlattenAppend(segments[..n + 1], segments[n + 1..]);
    assert buffer + upTo == buffer + pre + segments[n];
    assert buffer + Flatten(segments) == buffer + upTo + after;
    DecodeSplit(buffer + pre, segments[n], limit, valid);
    DecodeSplit(buffer + upTo, after, limit, valid);
  }

  lemma FlattenOne(segment: Bytes)
    ensures Flatten([segment]) == segment
  {
    assert [segment][1..] == [] && segment + [] == segment;
  }

  /**
   Exactly when an error loses nothing: the caller has all the events of the stream if and only if the push that
   fails, the one after `n` others, completes none of its own.
   */
  lemma {:induction false} NothingIsLostExactly(buffer: Bytes, segments: seq<Bytes>, limit: nat, valid: Bytes -> bool)
    returns (n: nat)
    requires Settled(buffer, limit, valid) && Feed(buffer, segments, limit, valid).verdict.Failed?
    ensures n < |segments| && Decode(buffer + Flatten(segments[..n]), limit, valid).verdict.More?
    ensures Decode(buffer + Flatten(segments[..n + 1]), limit, valid).verdict.Failed?
    ensures var rest := Decode(buffer + Flatten(segments[..n]), limit, valid).verdict.rest;
      Feed(buffer, segments, limit, valid).delivered == Decode(buffer + Flatten(segments), limit, valid).events <==>
      Decode(rest + segments[n], limit, valid).events == []
  {
    hide Decode, Next, At, Feed, Settled;
    n := DeliveredBeforeError(buffer, segments, limit, valid);
    WholeStream(buffer, segments, n, limit, valid);
  }
}
