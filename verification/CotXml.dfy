/**
 Outgoing documents (src/protocol.rs:25-64): XML escaping and the event template.  Rust strings are
 taken as their UTF-8 bytes; every character replaced is ASCII, so replacing it is byte by byte.
 */
module CotXml {
  import opened Wrappers
  import opened Marker
  import opened Decoder
  import opened StreamGrammar

  /** `str::replace` with a one-byte pattern. */
  function Replace(s: Bytes, c: char, text: Bytes): Bytes {
    if s == [] then [] else (if s[0] == c then text else [s[0]]) + Replace(s[1..], c, text)
  }

  function Escape(value: Bytes): Bytes {
    var amp := Replace(value, '&', "&amp;");
    var lt := Replace(amp, '<', "&lt;");
    var gt := Replace(lt, '>', "&gt;");
    var quot := Replace(gt, '"', "&quot;");
    Replace(quot, '\'', "&apos;")
  }

  /** The predefined entities, section 4.6 of XML 1.0. */
  function Entity(c: char): Bytes {
    match c
    case '&' => "&amp;"
    case '<' => "&lt;"
    case '>' => "&gt;"
    case '"' => "&quot;"
    case '\'' => "&apos;"
    case _ => [c]
  }

  /** All five characters replaced at once. */
  function EscapeAtOnce(s: Bytes): Bytes {
    if s == [] then [] else Entity(s[0]) + EscapeAtOnce(s[1..])
  }

  /** The first character that a text means, and how many bytes say so. */
  function ReadEntity(s: Bytes): (r: (char, nat))
    requires s != []
    ensures 0 < r.1 <= |s|
  {
    if "&amp;" <= s then ('&', 5)
    else if "&lt;" <= s then ('<', 4)
    else if "&gt;" <= s then ('>', 4)
    else if "&quot;" <= s then ('"', 6)
    else if "&apos;" <= s then ('\'', 6)
    else (s[0], 1)
  }

  /** What a reader of the attribute makes of it. */
  function Unescape(s: Bytes): Bytes {
    if s == [] then []
    else
      var (c, n) := ReadEntity(s);
      [c] + Unescape(s[n..])
  }

  lemma {:induction false} ReplaceConcat(a: Bytes, b: Bytes, c: char, text: Bytes)
    ensures Replace(a + b, c, text) == Replace(a, c, text) + Replace(b, c, text)
  {
    if a == [] {
      assert a + b == b;
    } else {
      assert (a + b)[1..] == a[1..] + b;
      ReplaceConcat(a[1..], b, c, text);
    }
  }

  lemma {:induction false} ReplaceAbsent(s: Bytes, c: char, text: Bytes)
    requires c !in s
    ensures Replace(s, c, text) == s
  {
    if s != [] {
      ReplaceAbsent(s[1..], c, text);
    }
  }

  lemma EscapeConcat(a: Bytes, b: Bytes)
    ensures Escape(a + b) == Escape(a) + Escape(b)
  {
    ReplaceConcat(a, b, '&', "&amp;");
    var a1, b1 := Replace(a, '&', "&amp;"), Replace(b, '&', "&amp;");
    ReplaceConcat(a1, b1, '<', "&lt;");
    var a2, b2 := Replace(a1, '<', "&lt;"), Replace(b1, '<', "&lt;");
    ReplaceConcat(a2, b2, '>', "&gt;");
    var a3, b3 := Replace(a2, '>', "&gt;"), Replace(b2, '>', "&gt;");
    ReplaceConcat(a3, b3, '"', "&quot;");
    ReplaceConcat(Replace(a3, '"', "&quot;"), Replace(b3, '"', "&quot;"), '\'', "&apos;");
  }

  /** One step on what earlier steps made of one character. */
  lemma ReplaceStep(done: Bytes, d: char, text: Bytes)
    ensures done == [d] ==> Replace(done, d, text) == text
    ensures d !in done ==> Replace(done, d, text) == done
  {
    if d !in done {
      ReplaceAbsent(done, d, text);
    }
  }

  /** One character: the entity that one step writes is left alone by every later step. */
  lemma EscapeOne(c: char)
    ensures Escape([c]) == Entity(c)
  {
    hide Replace;
    ReplaceStep([c], '&', "&amp;");
    var amp := if c == '&' then Entity(c) else [c];
    ReplaceStep(amp, '<', "&lt;");
    var lt := if c == '<' then Entity(c) else amp;
    ReplaceStep(lt, '>', "&gt;");
    var gt := if c == '>' then Entity(c) else lt;
    ReplaceStep(gt, '"', "&quot;");
    var quot := if c == '"' then Entity(c) else gt;
    ReplaceStep(quot, '\'', "&apos;");
  }

  /** The five replacements in sequence are one simultaneous replacement. */
  lemma {:induction false} EscapeIsAtOnce(s: Bytes)
    ensures Escape(s) == EscapeAtOnce(s)
  {
    if s != [] {
      assert s == [s[0]] + s[1..];
      EscapeConcat([s[0]], s[1..]);
      EscapeOne(s[0]);
      EscapeIsAtOnce(s[1..]);
    }
  }

  lemma EntityDecodes(c: char, rest: Bytes)
    ensures ReadEntity(Entity(c) + rest) == (c, |Entity(c)|)
  {
    var s := Entity(c) + rest;
    assert Entity(c) <= s;
    assert s[0] == Entity(c)[0] && (|Entity(c)| > 1 ==> s[1] == Entity(c)[1] && s[2] == Entity(c)[2]);
  }

  lemma {:induction false} AtOnceDecodes(s: Bytes)
    ensures Unescape(EscapeAtOnce(s)) == s
  {
    if s != [] {
      var rest := EscapeAtOnce(s[1..]);
      EntityDecodes(s[0], rest);
      assert EscapeAtOnce(s)[|Entity(s[0])|..] == rest;
      AtOnceDecodes(s[1..]);
    }
  }

  /** Escaping has a left inverse, so no two values are written alike. */
  lemma EscapeRoundTrip(s: Bytes)
    ensures Unescape(Escape(s)) == s
  {
    EscapeIsAtOnce(s);
    AtOnceDecodes(s);
  }

  lemma EscapeInjective(s: Bytes, t: Bytes)
    ensures Escape(s) == Escape(t) <==> s == t
  {
    EscapeRoundTrip(s);
    EscapeRoundTrip(t);
  }

  predicate Markup(c: char) {
    c == '<' || c == '>' || c == '"' || c == '\''
  }

  lemma EntityHasNoMarkup(c: char)
    ensures forall d :: d in Entity(c) ==> !Markup(d)
  {
  }

  lemma {:induction false} AtOnceHasNoMarkup(s: Bytes)
    ensures forall c :: c in EscapeAtOnce(s) ==> !Markup(c)
    ensures (forall c :: c in s ==> Entity(c) == [c]) ==> EscapeAtOnce(s) == s
  {
    if s != [] {
      hide Markup;
      EntityHasNoMarkup(s[0]);
      AtOnceHasNoMarkup(s[1..]);
    }
  }

  /** No markup survives, and a value without the five characters is written as it is. */
  lemma EscapeHasNoMarkup(s: Bytes)
    ensures forall c :: c in Escape(s) ==> !Markup(c)
    ensures (forall c :: c in s ==> c !in "&<>\"'") ==> Escape(s) == s
  {
    EscapeIsAtOnce(s);
    AtOnceHasNoMarkup(s);
  }

  /** The values other than uid and callsign are the texts their formatters print. */
  datatype PositionEvent = PositionEvent(
    uid: Bytes, callsign: Bytes,
    latitude: Bytes, longitude: Bytes, altitude: Bytes, course: Bytes, speed: Bytes,
    time: Bytes, stale: Bytes, correlationId: Bytes)
  {
    /** RFC 3339 times, decimal numbers and UUIDs are printed without `<`. */
    predicate Printable() {
      && '<' !in latitude && '<' !in longitude && '<' !in altitude && '<' !in course && '<' !in speed
      && '<' !in time && '<' !in stale && '<' !in correlationId
    }

    function EventAttributes(): seq<(Bytes, Bytes)> {
      [("version", "2.0"), ("uid", Escape(uid)), ("type", "a-f-G-U-C"),
       ("time", time), ("start", time), ("stale", stale), ("how", "m-g")]
    }

    function PointAttributes(): seq<(Bytes, Bytes)> {
      [("lat", latitude), ("lon", longitude), ("hae", altitude), ("ce", "9999999"), ("le", "9999999")]
    }

    function ContactAttributes(): seq<(Bytes, Bytes)> { [("callsign", Escape(callsign))] }

    function TrackAttributes(): seq<(Bytes, Bytes)> { [("course", course), ("speed", speed)] }

    function CorrelationAttributes(): seq<(Bytes, Bytes)> { [("correlation_id", correlationId)] }

    function EventTag(): Bytes { Tag("event", EventAttributes(), ">") }

    function PointTag(): Bytes { Tag("point", PointAttributes(), "/>") }

    function ContactTag(): Bytes { Tag("contact", ContactAttributes(), "/>") }

    function TrackTag(): Bytes { Tag("track", TrackAttributes(), "/>") }

    function CorrelationTag(): Bytes { Tag("tak_bench", CorrelationAttributes(), "/>") }

    function Body(): seq<Bytes> {
      [PointTag(), DETAIL, ContactTag(), TakvTag(), TrackTag(), CorrelationTag(), DETAIL_END]
    }

    function ToXml(): Bytes {
      EventTag() + Flatten(Body()) + END
    }
  }

  const DETAIL: Bytes := "<detail>"
  const DETAIL_END: Bytes := "</detail>"

  function TakvAttributes(): seq<(Bytes, Bytes)> {
    [("device", "tak_bench"), ("os", "Linux"), ("platform", "tak_bench"), ("version", "0.2.0")]
  }

  function TakvTag(): Bytes { Tag("takv", TakvAttributes(), "/>") }

  function Attributes(attributes: seq<(Bytes, Bytes)>): Bytes {
    if attributes == [] then []
    else " " + attributes[0].0 + "=\"" + attributes[0].1 + "\"" + Attributes(attributes[1..])
  }

  function Tag(name: Bytes, attributes: seq<(Bytes, Bytes)>, close: Bytes): Bytes {
    "<" + name + Attributes(attributes) + close
  }

  predicate Plain(attributes: seq<(Bytes, Bytes)>) {
    forall a :: a in attributes ==> '<' !in a.0 && '<' !in a.1
  }

  lemma {:induction false} PlainAttributes(attributes: seq<(Bytes, Bytes)>)
    requires Plain(attributes)
    ensures '<' !in Attributes(attributes)
  {
    if attributes != [] {
      PlainAttributes(attributes[1..]);
    }
  }

  /** A tag: its only `<` opens it. */
  ghost predicate IsTag(tag: Bytes) {
    |tag| >= 3 && tag[0] == '<' && '<' !in tag[1..]
  }

  /** A tag that a marker cannot be mistaken for. */
  ghost predicate Differs(tag: Bytes, m: Bytes) {
    && IsTag(tag) && |m| >= 3 && m[0] == '<'
    && (tag[1] != m[1] || tag[2] != m[2])
  }

  lemma TagShape(name: Bytes, attributes: seq<(Bytes, Bytes)>, close: Bytes)
    requires |name| >= 2 && '<' !in name && '<' !in close && Plain(attributes)
    ensures var tag := Tag(name, attributes, close);
      IsTag(tag) && tag[1] == name[0] && tag[2] == name[1]
  {
    PlainAttributes(attributes);
    assert Tag(name, attributes, close)[1..] == name + Attributes(attributes) + close;
  }

  lemma InsideTag(tag: Bytes, rest: Bytes, m: Bytes, i: int)
    requires IsTag(tag) && m != [] && m[0] == '<' && 0 < i < |tag|
    ensures !At(tag + rest, m, i)
  {
    assert (tag + rest)[i + 0] == tag[1..][i - 1];
    assert m[0] == '<';
  }

  lemma NoneInTag(tag: Bytes, rest: Bytes, m: Bytes, i: int)
    requires Differs(tag, m) && i < |tag|
    ensures !At(tag + rest, m, i)
  {
    if 0 < i {
      InsideTag(tag, rest, m, i);
    } else if i == 0 {
      assert (tag + rest)[0 + 1] == tag[1] && (tag + rest)[0 + 2] == tag[2];
      assert m[1] != tag[1] || m[2] != tag[2];
    }
  }

  /** A marker is found behind a tag that it differs from. */
  lemma FirstBehindTag(tag: Bytes, behind: Bytes, m: Bytes, i: nat)
    requires Differs(tag, m)
    ensures FirstAt(tag + behind, m, |tag| + i) <==> FirstAt(behind, m, i)
  {
    Halves(tag, behind);
    forall j | 0 <= j < |tag|
      ensures !At(tag + behind, m, j)
    {
      NoneInTag(tag, behind, m, j);
    }
    hide At, Differs;
    FirstAtDrop(tag + behind, m, |tag|, i);
  }

  /** And behind any number of them. */
  lemma {:induction false} FirstBehindTags(tags: seq<Bytes>, rest: Bytes, m: Bytes, i: nat)
    requires forall t :: t in tags ==> Differs(t, m)
    ensures FirstAt(Flatten(tags) + rest, m, |Flatten(tags)| + i) <==> FirstAt(rest, m, i)
    decreases |tags|
  {
    if tags == [] {
      assert Flatten(tags) + rest == rest;
    } else {
      var behind := Flatten(tags[1..]) + rest;
      assert tags[0] in tags && forall t :: t in tags[1..] ==> t in tags;
      hide FirstAt, Differs;
      assert Flatten(tags) + rest == tags[0] + behind;
      FirstBehindTag(tags[0], behind, m, |Flatten(tags[1..])| + i);
      FirstBehindTags(tags[1..], rest, m, i);
    }
  }

  lemma {:induction false} NoneBehindTags(tags: seq<Bytes>, m: Bytes)
    requires m != [] && forall t :: t in tags ==> Differs(t, m)
    ensures Absent(Flatten(tags), m)
    decreases |tags|
  {
    if tags != [] {
      var rest := Flatten(tags[1..]);
      NoneBehindTags(tags[1..], m);
      forall i
        ensures !At(tags[0] + rest, m, i)
      {
        if i < |tags[0]| {
          NoneInTag(tags[0], rest, m, i);
        } else {
          assert (tags[0] + rest)[|tags[0]|..] == rest;
          AtDrop(tags[0] + rest, m, |tags[0]|, i - |tags[0]|);
        }
      }
    }
  }

  lemma EscapedIsPlain(s: Bytes)
    ensures '<' !in Escape(s)
  {
    EscapeHasNoMarkup(s);
    assert Markup('<');
  }

  /** Whether a marker can be mistaken for a tag is settled by the tag's name. */
  lemma NameDiffers(name: Bytes, attributes: seq<(Bytes, Bytes)>, close: Bytes)
    requires |name| >= 2 && '<' !in name && '<' !in close && Plain(attributes)
    ensures IsTag(Tag(name, attributes, close))
    ensures name[0] != 'e' ==> Differs(Tag(name, attributes, close), START)
    ensures name[0] != '/' || name[1] != 'e' ==> Differs(Tag(name, attributes, close), END)
  {
    TagShape(name, attributes, close);
  }

  lemma EventTagShape(e: PositionEvent)
    requires e.Printable()
    ensures START <= e.EventTag() && IsTag(e.EventTag()) && Differs(e.EventTag(), END)
  {
    EventAttributesArePlain(e);
    var attributes := e.EventAttributes();
    hide PositionEvent.EventAttributes, Escape, Attributes, Plain;
    NameDiffers("event", attributes, ">");
  }

  lemma EventAttributesArePlain(e: PositionEvent)
    requires e.Printable()
    ensures Plain(e.EventAttributes())
  {
    EscapedIsPlain(e.uid);
    hide Escape;
  }

  /** A tag of the document's body is not mistaken for either marker. */
  ghost predicate Inner(tag: Bytes) {
    Differs(tag, START) && Differs(tag, END)
  }

  lemma PointIsInner(e: PositionEvent)
    requires e.Printable()
    ensures Inner(e.PointTag())
  {
    hide Tag;
    NameDiffers("point", e.PointAttributes(), "/>");
  }

  lemma ContactIsInner(e: PositionEvent)
    ensures Inner(e.ContactTag())
  {
    EscapedIsPlain(e.callsign);
    hide Escape, Tag;
    NameDiffers("contact", e.ContactAttributes(), "/>");
  }

  lemma TakvIsInner()
    ensures Inner(TakvTag())
  {
    hide Tag;
    NameDiffers("takv", TakvAttributes(), "/>");
  }

  lemma TrackIsInner(e: PositionEvent)
    requires e.Printable()
    ensures Inner(e.TrackTag())
  {
    hide Tag;
    NameDiffers("track", e.TrackAttributes(), "/>");
  }

  lemma CorrelationIsInner(e: PositionEvent)
    requires e.Printable()
    ensures Inner(e.CorrelationTag())
  {
    hide Tag;
    NameDiffers("tak_bench", e.CorrelationAttributes(), "/>");
  }

  lemma BodyIsInner(e: PositionEvent)
    requires e.Printable()
    ensures forall t :: t in e.Body() ==> Inner(t)
  {
    PointIsInner(e);
    ContactIsInner(e);
    TakvIsInner();
    TrackIsInner(e);
    CorrelationIsInner(e);
    assert Inner(DETAIL) && Inner(DETAIL_END);
    hide Inner, Tag;
  }

  /** Each document holds one `<event`, at its start, and one `</event>`, at its end. */
  lemma DocumentIsFrame(e: PositionEvent)
    requires e.Printable()
    ensures IsFrame(e.ToXml())
    ensures forall i :: At(e.ToXml(), START, i) <==> i == 0
    ensures forall i :: At(e.ToXml(), END, i) <==> i == |e.ToXml()| - |END|
  {
    EventTagShape(e);
    BodyIsInner(e);
    var open, body := e.EventTag(), e.Body();
    hide At, IsTag, Differs, Tag;
    OneStart(open, body, END);
    assert ([open] + body)[1..] == body;
    assert Flatten([open] + body) == open + Flatten(body);
    OneEnd([open] + body);
  }

  /** Behind an opening tag there is no other. */
  lemma OnlyAtStart(open: Bytes, rest: Bytes)
    requires IsTag(open) && START <= open && Absent(rest, START)
    ensures forall i :: At(open + rest, START, i) <==> i == 0
  {
    assert At(open + rest, START, 0);
    Halves(open, rest);
    hide At, IsTag;
    forall i | i != 0
      ensures !At(open + rest, START, i)
    {
      if 0 < i < |open| {
        InsideTag(open, rest, START, i);
      } else if i >= |open| {
        AtDrop(open + rest, START, |open|, i - |open|);
      } else {
        NotBefore(open + rest, START, i);
      }
    }
  }

  /** An opening tag in front of tags that differ from `<event`. */
  lemma OneStart(open: Bytes, middle: seq<Bytes>, close: Bytes)
    requires IsTag(open) && START <= open && close == END
    requires forall t :: t in middle ==> Differs(t, START)
    ensures forall i :: At(open + Flatten(middle) + close, START, i) <==> i == 0
  {
    var tags := middle + [close];
    EndIsTag();
    FlattenAppend(middle, [close]);
    hide At, Absent, IsTag, Differs;
    assert Flatten([close]) == close;
    NoneBehindTags(tags, START);
    OnlyAtStart(open, Flatten(tags));
    assert open + Flatten(tags) == open + Flatten(middle) + close;
  }

  lemma EndIsTag()
    ensures Differs(END, START)
  {
  }

  lemma NotBefore(s: Bytes, m: Bytes, i: int)
    requires i < 0
    ensures !At(s, m, i)
  {
  }

  /** Tags that differ from `</event>` in front of it. */
  lemma OneEnd(tags: seq<Bytes>)
    requires forall t :: t in tags ==> Differs(t, END)
    ensures forall i :: At(Flatten(tags) + END, END, i) <==> i == |Flatten(tags)|
  {
    FirstBehindTags(tags, END, END, 0);
    assert FirstAt(END, END, 0);
  }
}
