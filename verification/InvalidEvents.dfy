/**
 What the invalid events (src/scenarios.rs:801-817) do to a receiving decoder: two are frames of their own,
 two run into the document behind them, and one is over the limit.
 */
module InvalidEvents {
  import opened Wrappers
  import opened Marker
  import opened Decoder
  import opened Segmentation
  import opened StreamGrammar
  import opened CotXml
  import opened Sender

  /** An opening tag that is not `</event>`, whatever follows it. */
  ghost predicate Opens(tag: Bytes) {
    START <= tag && Differs(tag, END)
  }

  lemma OpensAtStart(tag: Bytes, rest: Bytes)
    requires Opens(tag)
    ensures At(tag + rest, START, 0)
  {
  }

  /** A tag in front of a frame makes one frame with it. */
  lemma SwallowsFrame(tag: Bytes, f: Bytes)
    requires Opens(tag) && IsFrame(f)
    ensures IsFrame(tag + f)
  {
    OpensAtStart(tag, f);
    hide At, Differs;
    assert Flatten([tag]) == tag;
    FirstBehindTags([tag], f, END, |f| - |END|);
  }

  /** Tags of the body, and the end: a frame. */
  lemma TagsAreFrame(tag: Bytes, body: seq<Bytes>)
    requires Opens(tag) && forall t :: t in body ==> Differs(t, END)
    ensures IsFrame(tag + Flatten(body) + END)
  {
    OpensAtStart(tag, Flatten(body) + END);
    OpensDiffers(tag);
    hide *;
    EndBehindTags(tag, body);
    ConcatAssociates(tag, Flatten(body), END);
    FrameIs(tag + Flatten(body) + END);
  }

  lemma OpensDiffers(tag: Bytes)
    requires Opens(tag)
    ensures Differs(tag, END)
  {
  }

  lemma FrameIs(f: Bytes)
    requires At(f, START, 0) && FirstAt(f, END, |f| - |END|)
    ensures IsFrame(f)
  {
  }

  lemma EndBehindTags(tag: Bytes, body: seq<Bytes>)
    requires Differs(tag, END) && forall t :: t in body ==> Differs(t, END)
    ensures var f := tag + Flatten(body) + END; FirstAt(f, END, |f| - |END|)
  {
    hide *;
    EndIsFirst();
    FlattenFirst(tag, body);
    FirstBehindTags([tag] + body, END, END, 0);
  }

  lemma EndIsFirst()
    ensures FirstAt(END, END, 0)
  {
  }

  lemma FlattenFirst(tag: Bytes, body: seq<Bytes>)
    ensures Flatten([tag] + body) == tag + Flatten(body)
  {
    assert ([tag] + body)[1..] == body;
  }

  lemma MalformedOpens()
    ensures Opens(InvalidXml(MalformedXml)) && Opens(InvalidXml(UnterminatedXml))
  {
  }

  lemma NoGap()
    ensures Absent([], START)
  {
  }

  /**
   A malformed or unterminated event is not seen by the receiver until the next document arrives, unless it is
   beyond the limit already, and then the two are one frame: it is that frame whose size and XML are checked, so
   the document never comes out alone.
   */
  lemma BrokenEventSwallowsNext(kind: InvalidEventKind, document: Bytes, after: Bytes, limit: nat, valid: Bytes -> bool)
    requires kind == MalformedXml || kind == UnterminatedXml
    requires IsFrame(document)
    ensures var xml := InvalidXml(kind);
      Decode(xml, limit, valid) == Decoded([], if |xml| > limit then Failed(FrameTooLarge, xml) else More(xml))
    ensures var merged := InvalidXml(kind) + document;
      Next(merged + after, limit, valid) ==
      if |merged| > limit then Stop(Failed(FrameTooLarge, after))
      else if !valid(merged) then Stop(Failed(Xml, after))
      else Cut(merged, after)
  {
    NoGap();
    MalformedOpens();
    hide Next, At, IsFrame, Opens, InvalidXml, Absent, Decode;
    var xml := InvalidXml(kind);
    SwallowsFrame(xml, document);
    OpensWaits(xml, limit, valid);
    FrameIsCut([], xml + document, after, limit, valid);
    assert [] + (xml + document) + after == xml + document + after;
  }

  /** Alone, it waits in the buffer, if it fits. */
  lemma OpensWaits(xml: Bytes, limit: nat, valid: Bytes -> bool)
    requires Opens(xml)
    ensures Decode(xml, limit, valid) == Decoded([], if |xml| > limit then Failed(FrameTooLarge, xml) else More(xml))
  {
    OpensAtStart(xml, []);
    assert xml + [] == xml && xml[0..] == xml;
    assert Flatten([xml]) == xml;
    NoneBehindTags([xml], END);
    FirstIsFound(xml, START, 0);
    hide At, Differs;
  }

  lemma EventOpens()
    ensures Opens(BARE_EVENT)
  {
  }

  lemma TimedOpens()
    ensures Opens(BAD_TIME)
  {
    assert BAD_TIME[1..] == "event time" + "=\"not-a-time\">";
  }

  lemma PointDiffers()
    ensures Differs(BAD_POINT, END)
  {
    assert BAD_POINT[1..] == "point lat=\"nan\"" + " lon=\"999\"/>";
  }

  lemma CoordinatesAreFrame()
    ensures IsFrame(InvalidXml(InvalidCoordinates))
  {
    EventOpens();
    PointDiffers();
    hide Opens, Differs, IsFrame;
    TagsAreFrame(BARE_EVENT, [BAD_POINT]);
    assert Flatten([BAD_POINT]) == BAD_POINT;
  }

  lemma TimeIsFrame()
    ensures IsFrame(InvalidXml(InvalidTime))
  {
    TimedOpens();
    hide Opens, Differs, IsFrame;
    TagsAreFrame(BAD_TIME, []);
    assert BAD_TIME + [] + END == BAD_TIME + END;
  }

  lemma FillerIs()
    ensures |Filler()| == LIMIT + 1 && '<' !in Filler()
  {
  }

  lemma OversizedIs()
    ensures InvalidXml(OversizedFrame) == BARE_EVENT + Filler() + END
  {
    hide Filler;
  }

  lemma OversizedIsFrame()
    ensures IsFrame(InvalidXml(OversizedFrame)) && |InvalidXml(OversizedFrame)| > LIMIT
  {
    FillerIs();
    OversizedIs();
    hide Filler, InvalidXml, IsFrame, Opens, BARE_EVENT;
    LongTagOpens(Filler());
    TagsAreFrame(BARE_EVENT + Filler(), []);
    assert BARE_EVENT + Filler() + [] + END == BARE_EVENT + Filler() + END;
  }

  lemma LongTagOpens(filler: Bytes)
    requires '<' !in filler
    ensures Opens(BARE_EVENT + filler)
  {
    assert (BARE_EVENT + filler)[1..] == "event>" + filler;
  }

  /** Bad coordinates and times pass the decoder as frames of their own; nothing around them is lost. */
  lemma BadValuesAreFrames(kind: InvalidEventKind, after: Bytes, limit: nat, valid: Bytes -> bool)
    requires kind == InvalidCoordinates || kind == InvalidTime
    requires |InvalidXml(kind)| <= limit && valid(InvalidXml(kind))
    ensures Next(InvalidXml(kind) + after, limit, valid) == Cut(InvalidXml(kind), after)
  {
    CoordinatesAreFrame();
    TimeIsFrame();
    NoGap();
    hide Next, At, IsFrame, InvalidXml;
    FrameIsCut([], InvalidXml(kind), after, limit, valid);
    assert [] + InvalidXml(kind) + after == InvalidXml(kind) + after;
  }

  /** The over-sized event is refused by a decoder with the sender's own limit, under every segmentation. */
  lemma OversizedIsRefused(segments: seq<Bytes>, after: Bytes, valid: Bytes -> bool)
    requires Flatten(segments) == InvalidXml(OversizedFrame) + after
    ensures var fed := Feed([], segments, LIMIT, valid);
      fed.delivered == [] && fed.verdict.Failed? && fed.verdict.error == FrameTooLarge
  {
    OversizedIsFrame();
    NothingStops(LIMIT, valid);
    hide At, IsFrame, InvalidXml, Feed;
    var xml := InvalidXml(OversizedFrame);
    FrameIsCut([], xml, after, LIMIT, valid);
    hide Next;
    assert [] + xml + after == xml + after;
    FeedIsDecode([], segments, LIMIT, valid);
    assert [] + (xml + after) == xml + after;
  }
}
