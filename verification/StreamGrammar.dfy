/**
 A stream read declaratively: gaps without `<event`, frames that end at their first `</event>`, and a
 tail.  The decoder finds exactly this reading, so what it emits, what it discards and when it
 reports an over-long frame are all stated here without mentioning how it searches.
 */
module StreamGrammar {
  import opened Wrappers
  import opened Marker
  import opened Decoder
  import opened Segmentation

  ghost predicate IsFrame(f: Bytes) {
    At(f, START, 0) && FirstAt(f, END, |f| - |END|)
  }

  /** A stretch of the stream: bytes to discard, then one frame. */
  datatype Piece = Piece(gap: Bytes, frame: Bytes)

  function Weave(pieces: seq<Piece>): Bytes {
    if pieces == [] then [] else pieces[0].gap + pieces[0].frame + Weave(pieces[1..])
  }

  function Frames(pieces: seq<Piece>): seq<Bytes> {
    if pieces == [] then [] else [pieces[0].frame] + Frames(pieces[1..])
  }

  /** No `<event` is discarded, and the decoder may accept the frame. */
  ghost predicate Acceptable(p: Piece, limit: nat, valid: Bytes -> bool) {
    Absent(p.gap, START) && IsFrame(p.frame) && |p.frame| <= limit && valid(p.frame)
  }

  ghost predicate AllAcceptable(pieces: seq<Piece>, limit: nat, valid: Bytes -> bool) {
    pieces != [] ==> Acceptable(pieces[0], limit, valid) && AllAcceptable(pieces[1..], limit, valid)
  }

  /** The tail holds no complete frame, and its unfinished one may still fit. */
  ghost predicate Waiting(tail: Bytes, limit: nat) {
    || Absent(tail, START)
    || exists s: nat :: FirstAt(tail, START, s) && Absent(tail[s..], END) && |tail| - s <= limit
  }

  /** More than `limit` bytes from `<event` on, and no event complete within `limit` bytes. */
  ghost predicate Overlong(tail: Bytes, limit: nat) {
    exists s: nat ::
      && FirstAt(tail, START, s)
      && |tail| - s > limit
      && forall j :: At(tail[s..], END, j) ==> j + |END| > limit
  }

  /** The tail's first frame fits and is not well-formed XML. */
  ghost predicate Corrupt(tail: Bytes, limit: nat, valid: Bytes -> bool) {
    exists p: Piece, after: Bytes ::
      && tail == p.gap + p.frame + after
      && Absent(p.gap, START) && IsFrame(p.frame) && |p.frame| <= limit && !valid(p.frame)
  }

  ghost predicate EndsAs(verdict: Verdict, tail: Bytes, limit: nat, valid: Bytes -> bool) {
    match verdict
    case More(rest) => Waiting(tail, limit) && Kept(rest, tail)
    case Failed(FrameTooLarge, _) => Overlong(tail, limit)
    case Failed(Xml, _) => Corrupt(tail, limit, valid)
  }

  /** What a waiting decoder keeps of its tail: from `<event` on, or the last five bytes. */
  ghost predicate Kept(rest: Bytes, tail: Bytes) {
    && |rest| <= |tail| && rest == tail[|tail| - |rest|..]
    && if Absent(tail, START) then |rest| == if |tail| > 5 then 5 else |tail|
       else FirstAt(tail, START, |tail| - |rest|)
  }

  /** The two markers do not overlap. */
  lemma EndAfterStart(b: Bytes, i: nat)
    requires At(b, START, 0) && At(b, END, i)
    ensures i >= |START|
  {
    var k := if i < |START| then i else 0;
    assert b[0 + k] == START[k] && b[0 + 1] == START[1];
    assert b[i + 0] == END[0] && b[i + 1] == END[1];
  }

  lemma FrameIsLong(f: Bytes)
    requires IsFrame(f)
    ensures |f| >= |START| + |END|
  {
    EndAfterStart(f, |f| - |END|);
  }

  /** `<event` cannot straddle the edge between a gap and a frame. */
  lemma GapLeadsToFrame(gap: Bytes, f: Bytes, after: Bytes)
    requires Absent(gap, START) && At(f, START, 0)
    ensures FirstAt(gap + f + after, START, |gap|)
  {
    var s := gap + f + after;
    forall k | 0 <= k < |START|
      ensures s[|gap| + k] == START[k]
    {
      assert f[0 + k] == START[k];
    }
    forall j: nat | j < |gap|
      ensures !At(s, START, j)
    {
      if j + |START| <= |gap| {
        assert s == gap + (f + after);
        AtPrefix(gap, f + after, START, j);
      } else {
        var k := |gap| - j;
        assert f[0 + 0] == START[0];
        assert s[j + k] == f[0] == '<';
        assert k == 1 || k == 2 || k == 3 || k == 4 || k == 5;
        assert START[k] != '<';
      }
    }
  }

  /** One gap and one acceptable frame are one turn of the loop. */
  lemma FrameIsCut(gap: Bytes, f: Bytes, after: Bytes, limit: nat, valid: Bytes -> bool)
    requires Absent(gap, START) && IsFrame(f)
    ensures Next(gap + f + after, limit, valid) ==
            if |f| > limit then Stop(Failed(FrameTooLarge, after))
            else if !valid(f) then Stop(Failed(Xml, after))
            else Cut(f, after)
  {
    var s := gap + f + after;
    GapLeadsToFrame(gap, f, after);
    FirstIsFound(s, START, |gap|);
    assert s[|gap|..] == f + after;
    FirstAtExtends(f, after, END, |f| - |END|);
    FirstIsFound(f + after, END, |f| - |END|);
    assert (f + after)[..|f|] == f && (f + after)[|f|..] == after;
  }

  /** Completeness: a reading of the stream, however obtained, is what the decoder follows. */
  lemma {:induction false} DecodeFollows(pieces: seq<Piece>, tail: Bytes, limit: nat, valid: Bytes -> bool)
    requires AllAcceptable(pieces, limit, valid)
    ensures var d := Decode(tail, limit, valid);
      Decode(Weave(pieces) + tail, limit, valid) == Decoded(Frames(pieces) + d.events, d.verdict)
    decreases |pieces|
  {
    hide Next, At, IsFrame;
    var d := Decode(tail, limit, valid);
    if pieces == [] {
      assert Weave(pieces) + tail == tail;
      assert Frames(pieces) + d.events == d.events;
    } else {
      var p, after := pieces[0], Weave(pieces[1..]) + tail;
      assert Weave(pieces) + tail == p.gap + p.frame + after;
      FrameIsCut(p.gap, p.frame, after, limit, valid);
      DecodeFollows(pieces[1..], tail, limit, valid);
      assert [p.frame] + (Frames(pieces[1..]) + d.events) == Frames(pieces) + d.events;
    }
  }

  ghost predicate StopsWith(tail: Bytes, error: DecodeError, limit: nat, valid: Bytes -> bool) {
    var d := Decode(tail, limit, valid);
    d.events == [] && d.verdict.Failed? && d.verdict.error == error
  }

  lemma WaitingStops(tail: Bytes, limit: nat, valid: Bytes -> bool)
    requires Waiting(tail, limit)
    ensures Decode(tail, limit, valid).events == [] && Decode(tail, limit, valid).verdict.More?
  {
    if s: nat :| FirstAt(tail, START, s) && Absent(tail[s..], END) && |tail| - s <= limit {
      FirstIsFound(tail, START, s);
    }
  }

  lemma OverlongStops(tail: Bytes, limit: nat, valid: Bytes -> bool)
    requires Overlong(tail, limit)
    ensures StopsWith(tail, FrameTooLarge, limit, valid)
  {
    hide At;
    var s: nat :| FirstAt(tail, START, s) && |tail| - s > limit
      && forall j :: At(tail[s..], END, j) ==> j + |END| > limit;
    FirstIsFound(tail, START, s);
  }

  lemma CorruptStops(tail: Bytes, limit: nat, valid: Bytes -> bool)
    requires Corrupt(tail, limit, valid)
    ensures StopsWith(tail, Xml, limit, valid)
  {
    hide At, Next;
    var p: Piece, after: Bytes :|
      && tail == p.gap + p.frame + after
      && Absent(p.gap, START) && IsFrame(p.frame) && |p.frame| <= limit && !valid(p.frame);
    FrameIsCut(p.gap, p.frame, after, limit, valid);
  }

  /** The bytes before the first `<event` hold none. */
  lemma BeforeFirst(s: Bytes, start: nat)
    requires FirstAt(s, START, start)
    ensures Absent(s[..start], START) && At(s[start..], START, 0)
  {
    forall j
      ensures !At(s[..start], START, j)
    {
      assert s == s[..start] + s[start..];
      if j + |START| <= start {
        AtPrefix(s[..start], s[start..], START, j);
      }
    }
  }

  /** Cutting right behind the first `</event>` gives a frame. */
  lemma CutIsFrame(b: Bytes, n: nat)
    requires At(b, START, 0) && n <= |b| && FirstAt(b, END, n - |END|)
    ensures IsFrame(b[..n])
  {
    var frame := b[..n];
    assert b == frame + b[n..];
    AtPrefix(frame, b[n..], START, 0);
    forall j | j <= n - |END|
      ensures At(frame, END, j) <==> At(b, END, j)
    {
      AtPrefix(frame, b[n..], END, j);
    }
  }

  /** One turn, read declaratively. */
  ghost predicate TurnReads(t: Turn, s: Bytes, limit: nat, valid: Bytes -> bool) {
    match t
    case Stop(verdict) => EndsAs(verdict, s, limit, valid)
    case Cut(frame, rest) =>
      && |frame| + |rest| <= |s|
      && s == GapOf(s, frame, rest) + frame + rest
      && Acceptable(Piece(GapOf(s, frame, rest), frame), limit, valid)
  }

  function GapOf(s: Bytes, frame: Bytes, rest: Bytes): Bytes
    requires |frame| + |rest| <= |s|
  {
    s[..|s| - |frame| - |rest|]
  }

  lemma NextReads(s: Bytes, limit: nat, valid: Bytes -> bool)
    ensures TurnReads(Next(s, limit, valid), s, limit, valid)
  {
    hide At, IsFrame;
    match Find(s, START)
    case None =>
    case Some(start) =>
      AtBound(s, START, start);
      var b := s[start..];
      match Find(b, END)
      case None =>
        assert s[|s| - |b|..] == b;
      case Some(at) =>
        AtBound(b, END, at);
        FrameTurnReads(s, start, at + |END|, limit, valid);
  }

  lemma FrameTurnReads(s: Bytes, start: nat, n: nat, limit: nat, valid: Bytes -> bool)
    requires FirstAt(s, START, start) && start + n <= |s| && FirstAt(s[start..], END, n - |END|)
    ensures TurnReads(Next(s, limit, valid), s, limit, valid)
  {
    hide At, Next, IsFrame;
    var gap, frame, after := s[..start], s[start..][..n], s[start + n..];
    assert s == gap + frame + after;
    BeforeFirst(s, start);
    CutIsFrame(s[start..], n);
    FrameIsCut(gap, frame, after, limit, valid);
    assert GapOf(s, frame, after) == gap;
    assert limit < n ==> Overlong(s, limit);
    var p := Piece(gap, frame);
    assert s == p.gap + p.frame + after;
  }

  /**
   Soundness and byte conservation: the whole input is the discarded gaps, the emitted frames and a
   tail, in order, and the verdict says how that tail ends.
   */
  lemma {:induction false} DecodeReads(s: Bytes, limit: nat, valid: Bytes -> bool)
    returns (pieces: seq<Piece>, tail: Bytes)
    ensures s == Weave(pieces) + tail && AllAcceptable(pieces, limit, valid)
    ensures Frames(pieces) == Decode(s, limit, valid).events
    ensures EndsAs(Decode(s, limit, valid).verdict, tail, limit, valid)
    decreases |s|
  {
    hide At, Next, IsFrame, EndsAs;
    NextReads(s, limit, valid);
    match Next(s, limit, valid)
    case Stop(_) =>
      pieces, tail := [], s;
    case Cut(frame, rest) =>
      var gap := GapOf(s, frame, rest);
      var later;
      later, tail := DecodeReads(rest, limit, valid);
      pieces := [Piece(gap, frame)] + later;
      assert pieces[1..] == later;
  }

  /** `FrameTooLarge` is reported exactly for a stream whose first unacceptable frame is over-long. */
  lemma LimitIsExact(s: Bytes, limit: nat, valid: Bytes -> bool)
    ensures var v := Decode(s, limit, valid).verdict;
      (v.Failed? && v.error == FrameTooLarge) <==>
      exists pieces, tail :: s == Weave(pieces) + tail && AllAcceptable(pieces, limit, valid) && Overlong(tail, limit)
  {
    hide At, Next, IsFrame, Overlong;
    var pieces, tail := DecodeReads(s, limit, valid);
    forall ps, t | s == Weave(ps) + t && AllAcceptable(ps, limit, valid) && Overlong(t, limit)
      ensures var v := Decode(s, limit, valid).verdict;
        v.Failed? && v.error == FrameTooLarge
    {
      DecodeFollows(ps, t, limit, valid);
      OverlongStops(t, limit, valid);
    }
  }

  /** `Xml` is reported exactly for a stream whose first unacceptable frame fits and is not well-formed. */
  lemma XmlIsExact(s: Bytes, limit: nat, valid: Bytes -> bool)
    ensures var v := Decode(s, limit, valid).verdict;
      (v.Failed? && v.error == Xml) <==>
      exists pieces, tail :: s == Weave(pieces) + tail && AllAcceptable(pieces, limit, valid) && Corrupt(tail, limit, valid)
  {
    hide At, Next, IsFrame, Corrupt;
    var pieces, tail := DecodeReads(s, limit, valid);
    forall ps, t | s == Weave(ps) + t && AllAcceptable(ps, limit, valid) && Corrupt(t, limit, valid)
      ensures var v := Decode(s, limit, valid).verdict;
        v.Failed? && v.error == Xml
    {
      DecodeFollows(ps, t, limit, valid);
      CorruptStops(t, limit, valid);
    }
  }

  /** A push succeeds exactly on a stream of acceptable frames with a waiting tail. */
  lemma SuccessIsExact(s: Bytes, limit: nat, valid: Bytes -> bool)
    ensures Decode(s, limit, valid).verdict.More? <==>
      exists pieces, tail :: s == Weave(pieces) + tail && AllAcceptable(pieces, limit, valid) && Waiting(tail, limit)
  {
    hide At, Next, IsFrame, Waiting;
    var pieces, tail := DecodeReads(s, limit, valid);
    forall ps, t | s == Weave(ps) + t && AllAcceptable(ps, limit, valid) && Waiting(t, limit)
      ensures Decode(s, limit, valid).verdict.More?
    {
      DecodeFollows(ps, t, limit, valid);
      WaitingStops(t, limit, valid);
    }
  }

  /** Memory bound: after a successful push at most `max(limit, 5)` bytes are kept. */
  lemma KeptIsBounded(s: Bytes, limit: nat, valid: Bytes -> bool)
    ensures var v := Decode(s, limit, valid).verdict;
      v.More? ==> |v.rest| <= limit || |v.rest| <= 5
  {
    hide Next, At, IsFrame;
    var pieces, tail := DecodeReads(s, limit, valid);
  }

  /** An event and an over-long frame behind it: read at once both are lost, read apart the event is not. */
  lemma ErrorLosesItsPush(frame: Bytes, tail: Bytes, limit: nat, valid: Bytes -> bool)
    requires IsFrame(frame) && |frame| <= limit && valid(frame) && Overlong(tail, limit)
    ensures Feed([], [frame + tail], limit, valid).delivered == []
    ensures Feed([], [frame, tail], limit, valid).delivered == [frame]
    ensures Feed([], [frame + tail], limit, valid).verdict.Failed?
  {
    NothingStops(limit, valid);
    hide At, Next, IsFrame, Overlong;
    OverlongStops(tail, limit, valid);
    FrameIsCut([], frame, tail, limit, valid);
    FrameIsCut([], frame, [], limit, valid);
    assert [] + (frame + tail) == [] + frame + tail && [] + frame == [] + frame + [];
    assert [] + tail == tail;
    assert [frame, tail][1..] == [tail];
    assert [frame] + [] == [frame];
  }

  lemma NothingStops(limit: nat, valid: Bytes -> bool)
    ensures Absent([], START)
    ensures Decode([], limit, valid) == Decoded([], More([]))
  {
    assert Absent([], START);
  }
}
