/**
 End to end: what the send loop hands to a connection, cut by the fragmenter and cut again by the
 network in any way, decodes to exactly the documents sent, in order.
 */
module RoundTrip {
  import opened Wrappers
  import opened Marker
  import opened Decoder
  import opened Segmentation
  import opened StreamGrammar
  import opened CotXml
  import opened Outgoing
  import opened Sender
  import opened Conservation

  function Xmls(events: seq<Event>): seq<Bytes> {
    if events == [] then [] else [events[0].xml] + Xmls(events[1..])
  }

  /** A document the receiving decoder accepts whenever it is no longer than the limit. */
  ghost predicate Document(e: Event, valid: Bytes -> bool) {
    e.invalid.None? && IsFrame(e.xml) && valid(e.xml)
  }

  ghost predicate Documents(events: seq<Event>, valid: Bytes -> bool) {
    forall e :: e in events ==> Document(e, valid)
  }

  /** The clock's texts and the ids are printable, and the peer's XML check accepts the documents. */
  ghost predicate Clean(cfg: SenderConfig, wakes: seq<Wake>, valid: Bytes -> bool) {
    forall w :: w in wakes && w.Tick? ==>
      && '<' !in w.time && '<' !in w.stale && '<' !in w.id
      && valid(PositionOf(cfg, w).ToXml())
  }

  lemma StepProduces(cfg: SenderConfig, link: Link, s: Sender, w: Wake)
    ensures var next := Step(cfg, link, s, w).0;
      next.produced == if w.Tick? then s.produced + [Make(cfg, s.count, w)] else s.produced
  {
    hide Make, Marks;
  }

  lemma {:induction false} RunProducesDocuments(cfg: SenderConfig, link: Link, s: Sender, wakes: seq<Wake>,
                                                valid: Bytes -> bool)
    requires InvalidBound(cfg) == 0 && Clean(cfg, wakes, valid) && Documents(s.produced, valid)
    ensures Documents(Run(cfg, link, s, wakes).0.produced, valid)
    decreases |wakes|
  {
    if wakes != [] {
      var w, next := wakes[0], Step(cfg, link, s, wakes[0]).0;
      StepProduces(cfg, link, s, w);
      hide Step, Document, Make;
      if w.Tick? {
        MadeIsDocument(cfg, s.count, w, valid);
      }
      assert Documents(next.produced, valid);
      RunProducesDocuments(cfg, link, next, wakes[1..], valid);
    }
  }

  lemma MadeIsDocument(cfg: SenderConfig, count: nat, w: Wake, valid: Bytes -> bool)
    requires InvalidBound(cfg) == 0 && Clean(cfg, [w], valid) && w.Tick?
    ensures Document(Make(cfg, count, w), valid)
  {
    assert w in [w];
    PositionIsPrintable(cfg, w);
    DocumentIsFrame(PositionOf(cfg, w));
    hide PositionOf, PositionEvent.ToXml, IsFrame;
  }

  lemma PositionIsPrintable(cfg: SenderConfig, w: Wake)
    requires w.Tick? && '<' !in w.time && '<' !in w.stale && '<' !in w.id
    ensures PositionOf(cfg, w).Printable()
  {
  }

  /** The documents of events within the limit, written one after the other, decode to themselves. */
  lemma {:induction false} DocumentsDecode(events: seq<Event>, valid: Bytes -> bool)
    requires Documents(events, valid) && forall e :: e in events ==> Fits(e)
    ensures Decode(XmlOf(events), LIMIT, valid) == Decoded(Xmls(events), More([]))
    decreases |events|
  {
    if events == [] {
      NothingStops(LIMIT, valid);
    } else {
      var e, after := events[0], XmlOf(events[1..]);
      assert e in events && Document(e, valid) && Fits(e);
      assert forall f :: f in events[1..] ==> f in events;
      DocumentsDecode(events[1..], valid);
      DocumentIsCut(e, after, valid);
      hide Decode, Document, Fits;
    }
  }

  /** One document in front of a stream. */
  lemma DocumentIsCut(e: Event, after: Bytes, valid: Bytes -> bool)
    requires Document(e, valid) && Fits(e)
    ensures Decode(e.xml + after, LIMIT, valid) == Prepend(e.xml, Decode(after, LIMIT, valid))
  {
    NothingStops(LIMIT, valid);
    hide Next, IsFrame;
    FrameIsCut([], e.xml, after, LIMIT, valid);
    assert [] + e.xml + after == e.xml + after;
  }

  /** A stream that decodes without error has no prefix that fails, and none that decodes otherwise. */
  lemma PrefixDecodes(a: Bytes, whole: Bytes, limit: nat, valid: Bytes -> bool)
    requires a <= whole && Decode(whole, limit, valid).verdict.More?
    ensures Decode(a, limit, valid).verdict.More?
    ensures Decode(a, limit, valid).events <= Decode(whole, limit, valid).events
  {
    assert a + whole[|a|..] == whole;
    DecodeSplit(a, whole[|a|..], limit, valid);
  }

  /**
   The capstone.  Invalid events off, any wake-ups, any break of the link, any chunk list (it does not
   show), any segmentation of what arrived: the receiver reports no error, gets every document counted
   as sent and, in order, nothing but documents produced; without a failed write, exactly those sent.
   */
  lemma {:induction false} SentIsReceived(
    cfg: SenderConfig, link: Link, wakes: seq<Wake>, segments: seq<Bytes>, valid: Bytes -> bool)
    requires InvalidBound(cfg) == 0 && Clean(cfg, wakes, valid)
    requires Flatten(segments) == Run(cfg, link, Start(), wakes).0.wire
    ensures var (s, flow) := Run(cfg, link, Start(), wakes);
      var fed := Feed([], segments, LIMIT, valid);
      && fed.verdict.More?
      && Xmls(Out(s)) <= fed.delivered <= Xmls(s.produced)
      && (flow != Ended(WriteFailed) ==> fed.delivered == Xmls(Out(s)) && fed.verdict.rest == [])
  {
    var (s, flow) := Run(cfg, link, Start(), wakes);
    StartIsGoing(cfg);
    RunKept(cfg, link, Start(), wakes);
    RunProducesDocuments(cfg, link, Start(), wakes, valid);
    hide Run, Document, Fits, Step, Decode;
    WireDecodes(cfg, link, s, flow, valid);
    NothingStops(LIMIT, valid);
    FeedIsDecode([], segments, LIMIT, valid);
    assert [] + s.wire == s.wire;
  }

  lemma WireDecodes(cfg: SenderConfig, link: Link, s: Sender, flow: Flow, valid: Bytes -> bool)
    requires Accounted(cfg, link, (s, flow)) && Documents(s.produced, valid)
    ensures var d := Decode(s.wire, LIMIT, valid);
      && d.verdict.More?
      && Xmls(Out(s)) <= d.events <= Xmls(s.produced)
      && (flow != Ended(WriteFailed) ==> d.events == Xmls(Out(s)) && d.verdict.rest == [])
  {
    AccountedFits(cfg, link, s, flow);
    SplitProduced(s);
    assert Documents(Out(s), valid);
    hide Document, Fits, Decode, Accounted, XmlOf, Marks, Out, Held;
    XmlsAppend(Out(s), Held(s));
    DocumentsDecode(Out(s), valid);
    if flow == Ended(WriteFailed) {
      DocumentsDecode(s.produced, valid);
      PrefixDecodes(s.wire, XmlOf(s.produced), LIMIT, valid);
      PrefixDecodes(XmlOf(Out(s)), s.wire, LIMIT, valid);
    }
  }

  /** What the account says of the wire. */
  lemma AccountedFits(cfg: SenderConfig, link: Link, s: Sender, flow: Flow)
    requires Accounted(cfg, link, (s, flow))
    ensures s.sent <= |s.produced| && XmlOf(Out(s)) <= s.wire
    ensures forall e :: e in Out(s) ==> Fits(e)
    ensures flow == Ended(WriteFailed) ==> s.wire <= XmlOf(s.produced) && forall e :: e in s.produced ==> Fits(e)
    ensures flow != Ended(WriteFailed) ==> s.wire == XmlOf(Out(s))
  {
    hide Fits, MadeAt, Marks, XmlOf, Oversized;
  }

  lemma {:induction false} XmlsAppend(a: seq<Event>, b: seq<Event>)
    ensures Xmls(a + b) == Xmls(a) + Xmls(b)
  {
    if a == [] {
      assert a + b == b;
    } else {
      assert (a + b)[1..] == a[1..] + b;
      XmlsAppend(a[1..], b);
    }
  }
}
