/**
 An independent reader of the documents sent: it knows the CoT names of elements and attributes and the
 predefined entities, and nothing of the template.  It finds every value where it belongs.
 */
module CotReader {
  import opened Wrappers
  import opened Marker
  import opened CotXml
  import Decoder

  datatype Element = Element(name: Bytes, attributes: seq<(Bytes, Bytes)>)

  /** How far `s` goes before the first of the characters in `stops`. */
  function UpTo(s: Bytes, stops: set<char>): (n: nat)
    ensures n <= |s|
  {
    if s == [] || s[0] in stops then 0 else 1 + UpTo(s[1..], stops)
  }

  lemma {:induction false} UpToStop(a: Bytes, b: Bytes, stops: set<char>)
    requires (forall c :: c in a ==> c !in stops) && (b == [] || b[0] in stops)
    ensures UpTo(a + b, stops) == |a|
    decreases |a|
  {
    if a == [] {
      assert a + b == b;
    } else {
      assert (a + b)[1..] == a[1..] + b && a[0] in a;
      UpToStop(a[1..], b, stops);
    }
  }

  /** Attributes, each a space, a name, `="`, a value and `"`; and what follows them. */
  function ReadAttributes(s: Bytes): (r: (seq<(Bytes, Bytes)>, Bytes))
    ensures |r.1| <= |s|
    decreases |s|
  {
    if s == [] || s[0] != ' ' then ([], s)
    else
      var k := UpTo(s[1..], {'='});
      var key, value := s[1..][..k], s[1..][k..];
      if |value| < 2 || value[1] != '"' then ([], s)
      else
        var n := UpTo(value[2..], {'"'});
        var rest := value[2..][n..];
        if rest == [] then ([], s)
        else
          var later := ReadAttributes(rest[1..]);
          ([(key, value[2..][..n])] + later.0, later.1)
  }

  /** One tag, and what follows it. */
  function ReadTag(s: Bytes): (r: (Element, Bytes))
    requires s != []
    ensures |r.1| < |s|
  {
    var n := UpTo(s[1..], {' ', '>'});
    var (attributes, after) := ReadAttributes(s[1..][n..]);
    var close := UpTo(after, {'>'});
    (Element(s[1..][..n], attributes), if close < |after| then after[close + 1..] else [])
  }

  function ReadTags(s: Bytes): seq<Element>
    decreases |s|
  {
    if s == [] || s[0] != '<' then [] else [ReadTag(s).0] + ReadTags(ReadTag(s).1)
  }

  predicate Quotable(attributes: seq<(Bytes, Bytes)>) {
    forall a :: a in attributes ==> '=' !in a.0 && '"' !in a.1
  }

  /** How an attribute falls into its parts. */
  lemma AttributeParts(key: Bytes, value: Bytes, rest: Bytes)
    ensures var s, inner := " " + key + "=\"" + value + "\"" + rest, "=\"" + (value + ("\"" + rest));
      && s != [] && s[0] == ' ' && s[1..] == key + inner
      && |inner| >= 2 && inner[0] == '=' && inner[1] == '"' && inner[2..] == value + ("\"" + rest)
    ensures ("\"" + rest) != [] && ("\"" + rest)[0] == '"' && ("\"" + rest)[1..] == rest
  {
  }

  lemma OneAttribute(key: Bytes, value: Bytes, rest: Bytes)
    requires '=' !in key && '"' !in value
    ensures var later := ReadAttributes(rest);
      ReadAttributes(" " + key + "=\"" + value + "\"" + rest) == ([(key, value)] + later.0, later.1)
  {
    var end := "\"" + rest;
    var inner := "=\"" + (value + end);
    AttributeParts(key, value, rest);
    hide UpTo;
    UpToStop(key, inner, {'='});
    Halves(key, inner);
    UpToStop(value, end, {'"'});
    Halves(value, end);
  }

  lemma FirstAttribute(attributes: seq<(Bytes, Bytes)>, rest: Bytes)
    requires attributes != []
    ensures var (key, value) := attributes[0];
      Attributes(attributes) + rest == " " + key + "=\"" + value + "\"" + (Attributes(attributes[1..]) + rest)
  {
  }

  lemma NoAttributes(rest: Bytes)
    requires rest == [] || rest[0] != ' '
    ensures ReadAttributes(Attributes([]) + rest) == ([], rest)
  {
    assert Attributes([]) + rest == rest;
  }

  lemma {:induction false} AttributesRead(attributes: seq<(Bytes, Bytes)>, rest: Bytes)
    requires Quotable(attributes) && (rest == [] || rest[0] != ' ')
    ensures ReadAttributes(Attributes(attributes) + rest) == (attributes, rest)
    decreases |attributes|
  {
    hide Attributes, ReadAttributes;
    if attributes == [] {
      NoAttributes(rest);
    } else {
      var (key, value) := attributes[0];
      AttributesRead(attributes[1..], rest);
      FirstAttribute(attributes, rest);
      assert attributes[0] in attributes;
      OneAttribute(key, value, Attributes(attributes[1..]) + rest);
      assert [attributes[0]] + attributes[1..] == attributes;
    }
  }

  /** The name ends where the attributes or the end of the tag begin. */
  lemma AttributesBegin(attributes: seq<(Bytes, Bytes)>)
    ensures Attributes(attributes) != [] ==> Attributes(attributes)[0] == ' '
  {
  }

  lemma BehindAngle(name: Bytes, attributes: seq<(Bytes, Bytes)>, close: Bytes, rest: Bytes)
    ensures var s := Tag(name, attributes, close) + rest;
      s != [] && s[0] == '<' && s[1..] == name + (Attributes(attributes) + (close + rest))
  {
    hide Attributes;
  }

  lemma NameIsRead(name: Bytes, attributes: seq<(Bytes, Bytes)>, tail: Bytes)
    requires ' ' !in name && '>' !in name && (attributes != [] || (tail != [] && tail[0] == '>'))
    ensures var s := name + (Attributes(attributes) + tail);
      && UpTo(s, {' ', '>'}) == |name|
      && s[..|name|] == name && s[|name|..] == Attributes(attributes) + tail
  {
    AttributesBegin(attributes);
    assert attributes != [] ==> Attributes(attributes) != [];
    hide Attributes;
    UpToStop(name, Attributes(attributes) + tail, {' ', '>'});
  }

  lemma TagReads(name: Bytes, attributes: seq<(Bytes, Bytes)>, close: Bytes, rest: Bytes)
    requires ' ' !in name && '>' !in name && Quotable(attributes)
    requires close == ">" || (close == "/>" && attributes != [])
    ensures var s := Tag(name, attributes, close) + rest;
      s != [] && s[0] == '<' && ReadTag(s) == (Element(name, attributes), rest)
  {
    BehindAngle(name, attributes, close, rest);
    hide Tag, Attributes, ReadAttributes, UpTo;
    NameIsRead(name, attributes, close + rest);
    AttributesRead(attributes, close + rest);
    CloseIsRead(close, rest);
  }

  lemma CloseIsRead(close: Bytes, rest: Bytes)
    requires close == ">" || close == "/>"
    ensures UpTo(close + rest, {'>'}) == |close| - 1 && (close + rest)[|close|..] == rest
  {
    assert close + rest == close[..|close| - 1] + (">" + rest);
    UpToStop(close[..|close| - 1], ">" + rest, {'>'});
  }

  // ---- a whole document ----

  datatype TagText = TagText(name: Bytes, attributes: seq<(Bytes, Bytes)>, close: Bytes)
  {
    function Text(): Bytes { Tag(name, attributes, close) }

    function Meaning(): Element { Element(name, attributes) }

    predicate Readable() {
      && ' ' !in name && '>' !in name && Quotable(attributes)
      && (close == ">" || (close == "/>" && attributes != []))
    }
  }

  function Texts(tags: seq<TagText>): seq<Bytes> {
    seq(|tags|, i requires 0 <= i < |tags| => tags[i].Text())
  }

  function Meanings(tags: seq<TagText>): seq<Element> {
    seq(|tags|, i requires 0 <= i < |tags| => tags[i].Meaning())
  }

  lemma OneTag(t: TagText, rest: Bytes)
    requires t.Readable()
    ensures ReadTags(t.Text() + rest) == [t.Meaning()] + ReadTags(rest)
  {
    TagReads(t.name, t.attributes, t.close, rest);
    hide Tag, ReadTag, Quotable;
  }

  lemma NextText(tags: seq<TagText>)
    requires tags != []
    ensures Flatten(Texts(tags)) == tags[0].Text() + Flatten(Texts(tags[1..]))
    ensures Meanings(tags) == [tags[0].Meaning()] + Meanings(tags[1..])
  {
    assert Texts(tags)[1..] == Texts(tags[1..]);
  }

  lemma {:induction false} TagsRead(tags: seq<TagText>)
    requires forall t :: t in tags ==> t.Readable()
    ensures ReadTags(Flatten(Texts(tags))) == Meanings(tags)
    decreases |tags|
  {
    if tags != [] {
      assert tags[0] in tags;
      hide TagText.Readable;
      TagsRead(tags[1..]);
      NextText(tags);
      OneTag(tags[0], Flatten(Texts(tags[1..])));
    }
  }

  function FindElement(elements: seq<Element>, name: Bytes): Option<Element> {
    if elements == [] then None
    else if elements[0].name == name then Some(elements[0])
    else FindElement(elements[1..], name)
  }

  function AttributeOf(attributes: seq<(Bytes, Bytes)>, key: Bytes): Bytes {
    if attributes == [] then []
    else if attributes[0].0 == key then Unescape(attributes[0].1)
    else AttributeOf(attributes[1..], key)
  }

  /** What a document says under an element's attribute. */
  function Says(elements: seq<Element>, name: Bytes, key: Bytes): Bytes {
    match FindElement(elements, name)
    case Some(element) => AttributeOf(element.attributes, key)
    case None => []
  }

  function ReadEvent(document: Bytes): PositionEvent {
    var elements := ReadTags(document);
    PositionEvent(
      Says(elements, "event", "uid"), Says(elements, "contact", "callsign"),
      Says(elements, "point", "lat"), Says(elements, "point", "lon"), Says(elements, "point", "hae"),
      Says(elements, "track", "course"), Says(elements, "track", "speed"),
      Says(elements, "event", "time"), Says(elements, "event", "stale"),
      Says(elements, "tak_bench", "correlation_id"))
  }

  lemma {:induction false} FoundAt(elements: seq<Element>, i: nat)
    requires i < |elements| && forall j :: 0 <= j < i ==> elements[j].name != elements[i].name
    ensures FindElement(elements, elements[i].name) == Some(elements[i])
  {
    if i > 0 {
      FoundAt(elements[1..], i - 1);
    }
  }

  lemma {:induction false} ValueAt(attributes: seq<(Bytes, Bytes)>, i: nat)
    requires i < |attributes| && forall j :: 0 <= j < i ==> attributes[j].0 != attributes[i].0
    ensures AttributeOf(attributes, attributes[i].0) == Unescape(attributes[i].1)
  {
    if i > 0 {
      ValueAt(attributes[1..], i - 1);
    }
  }

  lemma PlainReadsOne(s: Bytes)
    requires s != [] && '&' !in s
    ensures ReadEntity(s) == (s[0], 1)
  {
    assert s[0] in s && s[0] != '&';
  }

  lemma {:induction false} PlainReadsAsIs(s: Bytes)
    requires '&' !in s
    ensures Unescape(s) == s
  {
    if s != [] {
      PlainReadsOne(s);
      hide ReadEntity;
      PlainReadsAsIs(s[1..]);
    }
  }

  /** RFC 3339 times, decimal numbers and UUIDs are printed without quotes and ampersands. */
  predicate Unquoted(s: Bytes) { '"' !in s && '&' !in s }

  predicate AllUnquoted(e: PositionEvent) {
    && Unquoted(e.latitude) && Unquoted(e.longitude) && Unquoted(e.altitude) && Unquoted(e.course)
    && Unquoted(e.speed) && Unquoted(e.time) && Unquoted(e.stale) && Unquoted(e.correlationId)
  }

  /** The tags of a document. */
  function TagsOf(e: PositionEvent): seq<TagText> {
    [TagText("event", e.EventAttributes(), ">"),
     TagText("point", e.PointAttributes(), "/>"),
     TagText("detail", [], ">"),
     TagText("contact", e.ContactAttributes(), "/>"),
     TagText("takv", TakvAttributes(), "/>"),
     TagText("track", e.TrackAttributes(), "/>"),
     TagText("tak_bench", e.CorrelationAttributes(), "/>"),
     TagText("/detail", [], ">"),
     TagText("/event", [], ">")]
  }

  lemma DocumentIsTags(e: PositionEvent)
    ensures e.ToXml() == Flatten(Texts(TagsOf(e)))
  {
    hide Tag, Escape;
    assert DETAIL == TagText("detail", [], ">").Text() by { PlainTag("detail"); }
    assert DETAIL_END == TagText("/detail", [], ">").Text() by { PlainTag("/detail"); }
    assert Decoder.END == TagText("/event", [], ">").Text() by { PlainTag("/event"); }
    assert Texts(TagsOf(e)) == [e.EventTag()] + e.Body() + [Decoder.END];
    FlattenAppend([e.EventTag()] + e.Body(), [Decoder.END]);
    assert ([e.EventTag()] + e.Body())[1..] == e.Body();
    assert Flatten([Decoder.END]) == Decoder.END;
  }

  lemma PlainTag(name: Bytes)
    ensures Tag(name, [], ">") == "<" + name + ">"
  {
  }

  lemma EscapedIsQuotable(s: Bytes)
    ensures '"' !in Escape(s)
  {
    EscapeHasNoMarkup(s);
    assert Markup('"');
  }

  lemma EventIsReadable(e: PositionEvent)
    requires AllUnquoted(e)
    ensures TagText("event", e.EventAttributes(), ">").Readable()
  {
    EscapedIsQuotable(e.uid);
    hide Escape;
  }

  lemma PointIsReadable(e: PositionEvent)
    requires AllUnquoted(e)
    ensures TagText("point", e.PointAttributes(), "/>").Readable()
  {
  }

  lemma ContactIsReadable(e: PositionEvent)
    ensures TagText("contact", e.ContactAttributes(), "/>").Readable()
  {
    EscapedIsQuotable(e.callsign);
    hide Escape;
  }

  lemma TrackIsReadable(e: PositionEvent)
    requires AllUnquoted(e)
    ensures TagText("track", e.TrackAttributes(), "/>").Readable()
  {
  }

  lemma CorrelationIsReadable(e: PositionEvent)
    requires AllUnquoted(e)
    ensures TagText("tak_bench", e.CorrelationAttributes(), "/>").Readable()
  {
  }

  lemma TakvIsReadable()
    ensures TagText("takv", TakvAttributes(), "/>").Readable()
  {
  }

  lemma BareIsReadable(name: Bytes)
    requires ' ' !in name && '>' !in name
    ensures TagText(name, [], ">").Readable()
  {
  }

  lemma TagsAreReadable(e: PositionEvent)
    requires AllUnquoted(e)
    ensures forall t :: t in TagsOf(e) ==> t.Readable()
  {
    EventIsReadable(e);
    PointIsReadable(e);
    ContactIsReadable(e);
    TrackIsReadable(e);
    CorrelationIsReadable(e);
    TakvIsReadable();
    BareIsReadable("detail");
    BareIsReadable("/detail");
    BareIsReadable("/event");
    hide TagText.Readable, AllUnquoted, PositionEvent.EventAttributes, PositionEvent.PointAttributes;
    hide PositionEvent.ContactAttributes, PositionEvent.TrackAttributes, PositionEvent.CorrelationAttributes;
    hide TakvAttributes;
  }

  lemma ElementsOf(e: PositionEvent)
    requires AllUnquoted(e)
    ensures ReadTags(e.ToXml()) == Meanings(TagsOf(e))
  {
    TagsAreReadable(e);
    TagsRead(TagsOf(e));
    DocumentIsTags(e);
  }

  /** The template, element by element: every attribute there is, in order, with its value as it stands in the text. */
  lemma DocumentElements(e: PositionEvent)
    requires AllUnquoted(e)
    ensures ReadTags(e.ToXml()) ==
      [Element("event", [("version", "2.0"), ("uid", Escape(e.uid)), ("type", "a-f-G-U-C"), ("time", e.time),
                         ("start", e.time), ("stale", e.stale), ("how", "m-g")]),
       Element("point", [("lat", e.latitude), ("lon", e.longitude), ("hae", e.altitude),
                         ("ce", "9999999"), ("le", "9999999")]),
       Element("detail", []),
       Element("contact", [("callsign", Escape(e.callsign))]),
       Element("takv", [("device", "tak_bench"), ("os", "Linux"), ("platform", "tak_bench"), ("version", "0.2.0")]),
       Element("track", [("course", e.course), ("speed", e.speed)]),
       Element("tak_bench", [("correlation_id", e.correlationId)]),
       Element("/detail", []),
       Element("/event", [])]
  {
    ElementsOf(e);
    hide Escape, ReadTags, PositionEvent.ToXml;
    TagsMean(e);
  }

  lemma TagsMean(e: PositionEvent)
    ensures Meanings(TagsOf(e)) ==
      [Element("event", e.EventAttributes()), Element("point", e.PointAttributes()), Element("detail", []),
       Element("contact", e.ContactAttributes()), Element("takv", TakvAttributes()),
       Element("track", e.TrackAttributes()), Element("tak_bench", e.CorrelationAttributes()),
       Element("/detail", []), Element("/event", [])]
  {
    hide PositionEvent.EventAttributes, PositionEvent.PointAttributes, PositionEvent.ContactAttributes;
    hide PositionEvent.TrackAttributes, PositionEvent.CorrelationAttributes, TakvAttributes;
  }

  /** Each element has a name of its own. */
  lemma ElementsDiffer(e: PositionEvent, i: nat)
    requires i < 9
    ensures FindElement(Meanings(TagsOf(e)), TagsOf(e)[i].name) == Some(TagsOf(e)[i].Meaning())
  {
    hide PositionEvent.EventAttributes, PositionEvent.PointAttributes, PositionEvent.ContactAttributes;
    hide PositionEvent.TrackAttributes, PositionEvent.CorrelationAttributes, TakvAttributes, FindElement;
    var elements := Meanings(TagsOf(e));
    forall j | 0 <= j < i
      ensures elements[j].name != elements[i].name
    {
    }
    FoundAt(elements, i);
  }

  /** One value of a document: the `k`-th attribute of its `i`-th element. */
  lemma ValueIsRead(e: PositionEvent, i: nat, attributes: seq<(Bytes, Bytes)>, k: nat)
    requires AllUnquoted(e) && i < 9 && attributes == TagsOf(e)[i].attributes && k < |attributes|
    requires forall j :: 0 <= j < k ==> attributes[j].0 != attributes[k].0
    ensures Says(ReadTags(e.ToXml()), TagsOf(e)[i].name, attributes[k].0) == Unescape(attributes[k].1)
  {
    ElementsOf(e);
    ElementsDiffer(e, i);
    ValueAt(attributes, k);
    hide TagsOf, Unescape, FindElement, AttributeOf, ReadTags;
  }

  lemma TextIsRead(e: PositionEvent, i: nat, attributes: seq<(Bytes, Bytes)>, k: nat)
    requires AllUnquoted(e) && i < 9 && attributes == TagsOf(e)[i].attributes && k < |attributes|
    requires forall j :: 0 <= j < k ==> attributes[j].0 != attributes[k].0
    requires Unquoted(attributes[k].1)
    ensures Says(ReadTags(e.ToXml()), TagsOf(e)[i].name, attributes[k].0) == attributes[k].1
  {
    ValueIsRead(e, i, attributes, k);
    PlainReadsAsIs(attributes[k].1);
  }

  lemma EventReads(e: PositionEvent)
    requires AllUnquoted(e)
    ensures var elements := ReadTags(e.ToXml());
      && Says(elements, "event", "uid") == e.uid
      && Says(elements, "event", "time") == e.time
      && Says(elements, "event", "stale") == e.stale
  {
    hide Escape, Unescape, ReadTags, Says;
    ValueIsRead(e, 0, e.EventAttributes(), 1);
    EscapeRoundTrip(e.uid);
    TextIsRead(e, 0, e.EventAttributes(), 3);
    TextIsRead(e, 0, e.EventAttributes(), 5);
  }

  lemma PointReads(e: PositionEvent)
    requires AllUnquoted(e)
    ensures var elements := ReadTags(e.ToXml());
      && Says(elements, "point", "lat") == e.latitude
      && Says(elements, "point", "lon") == e.longitude
      && Says(elements, "point", "hae") == e.altitude
  {
    hide ReadTags, Says;
    TextIsRead(e, 1, e.PointAttributes(), 0);
    TextIsRead(e, 1, e.PointAttributes(), 1);
    TextIsRead(e, 1, e.PointAttributes(), 2);
  }

  lemma DetailReads(e: PositionEvent)
    requires AllUnquoted(e)
    ensures var elements := ReadTags(e.ToXml());
      && Says(elements, "contact", "callsign") == e.callsign
      && Says(elements, "track", "course") == e.course
      && Says(elements, "track", "speed") == e.speed
  {
    hide Escape, Unescape, ReadTags, Says;
    ValueIsRead(e, 3, e.ContactAttributes(), 0);
    EscapeRoundTrip(e.callsign);
    TextIsRead(e, 5, e.TrackAttributes(), 0);
    TextIsRead(e, 5, e.TrackAttributes(), 1);
  }

  /** The id that the receiving side looks for. */
  lemma CorrelationReads(e: PositionEvent)
    requires AllUnquoted(e)
    ensures Says(ReadTags(e.ToXml()), "tak_bench", "correlation_id") == e.correlationId
  {
    hide ReadTags, Says;
    TextIsRead(e, 6, e.CorrelationAttributes(), 0);
  }

  /** Reading a document gives back the event it was made of, whatever its uid and callsign. */
  lemma DocumentReadsBack(e: PositionEvent)
    requires AllUnquoted(e)
    ensures ReadEvent(e.ToXml()) == e
  {
    EventReads(e);
    PointReads(e);
    DetailReads(e);
    CorrelationReads(e);
    hide ReadTags, Says, PositionEvent.ToXml, AllUnquoted;
  }
}
