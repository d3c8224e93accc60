/**
 The incremental stream decoder (src/protocol.rs:135-191): the class that mutates its buffer, the
 function it computes, and the declarative reading of a stream that the function is proved to find.
 */
module Decoder {
  import opened Wrappers
  import opened Marker

  const START: Bytes := "<event"
  const END: Bytes := "</event>"

  datatype DecodeError = FrameTooLarge | Xml

  /** How a stream ends: it waits for more bytes, or an error stops it; `rest` stays in the buffer. */
  datatype Verdict =
    | More(rest: Bytes)
    | Failed(error: DecodeError, rest: Bytes)

  datatype Decoded = Decoded(events: seq<Bytes>, verdict: Verdict)

  /** The bytes kept when no `<event` is in sight: enough for one that is split. */
  function LastFive(s: Bytes): Bytes {
    if |s| > 5 then s[|s| - 5..] else s
  }

  /** One turn of the loop: it stops, or cuts the next frame. */
  datatype Turn =
    | Stop(verdict: Verdict)
    | Cut(frame: Bytes, rest: Bytes)

  /** `valid` stands for the foreign XML check. */
  ghost function Next(buffer: Bytes, limit: nat, valid: Bytes -> bool): (t: Turn)
    ensures t.Cut? ==> |t.rest| < |buffer|
  {
    match Find(buffer, START)
    case None => Stop(More(LastFive(buffer)))
    case Some(start) =>
      var b := buffer[start..];
      match Find(b, END)
      case None => Stop(if |b| > limit then Failed(FrameTooLarge, b) else More(b))
      case Some(at) =>
        var end := at + |END|;
        if end > limit then Stop(Failed(FrameTooLarge, b[end..]))
        else if !valid(b[..end]) then Stop(Failed(Xml, b[end..]))
        else Cut(b[..end], b[end..])
  }

  function Prepend(frame: Bytes, d: Decoded): Decoded {
    Decoded([frame] + d.events, d.verdict)
  }

  /** What the loop of `push` makes of a buffer. */
  ghost function Decode(buffer: Bytes, limit: nat, valid: Bytes -> bool): Decoded
    decreases |buffer|
  {
    match Next(buffer, limit, valid)
    case Stop(verdict) => Decoded([], verdict)
    case Cut(frame, rest) => Prepend(frame, Decode(rest, limit, valid))
  }

  /** The three ways in which a turn of the loop goes. */
  lemma DecodeSkips(buffer: Bytes, limit: nat, valid: Bytes -> bool)
    requires Find(buffer, START).None?
    ensures Decode(buffer, limit, valid) == Decoded([], More(LastFive(buffer)))
  {
  }

  lemma DecodeWaits(buffer: Bytes, start: nat, limit: nat, valid: Bytes -> bool)
    requires Find(buffer, START) == Some(start) && start <= |buffer| && Find(buffer[start..], END).None?
    ensures var b := buffer[start..];
      Decode(buffer, limit, valid) == Decoded([], if |b| > limit then Failed(FrameTooLarge, b) else More(b))
  {
  }

  lemma DecodeCuts(buffer: Bytes, start: nat, at: nat, limit: nat, valid: Bytes -> bool)
    requires Find(buffer, START) == Some(start) && start <= |buffer| && Find(buffer[start..], END) == Some(at)
    ensures var b, end := buffer[start..], at + |END|;
      && end <= |b|
      && Decode(buffer, limit, valid) ==
         if end > limit then Decoded([], Failed(FrameTooLarge, b[end..]))
         else if !valid(b[..end]) then Decoded([], Failed(Xml, b[end..]))
         else Prepend(b[..end], Decode(b[end..], limit, valid))
  {
    hide At;
    AtBound(buffer[start..], END, at);
  }

  class CotStreamDecoder {
    var buffer: Bytes
    const maxEventBytes: nat
    const validXml: Bytes -> bool

    constructor (maxEventBytes: nat, validXml: Bytes -> bool)
      ensures buffer == [] && this.maxEventBytes == maxEventBytes && this.validXml == validXml
    {
      this.buffer := [];
      this.maxEventBytes := maxEventBytes;
      this.validXml := validXml;
    }

    /** On an error the events already cut in this call are lost to the caller, as in the source. */
    method Push(bytes: Bytes) returns (r: Result<seq<Bytes>, DecodeError>)
      modifies this`buffer
      ensures var d := Decode(old(buffer) + bytes, maxEventBytes, validXml);
        && buffer == d.verdict.rest
        && r == if d.verdict.More? then Ok(d.events) else Err(d.verdict.error)
    {
      hide At, Next, Decode, FirstAt, Absent;
      buffer := buffer + bytes;
      ghost var whole := Decode(buffer, maxEventBytes, validXml);
      var events: seq<Bytes> := [];
      while true
        invariant
          var d := Decode(buffer, maxEventBytes, validXml);
          whole == Decoded(events + d.events, d.verdict)
        decreases |buffer|
      {
        ghost var before := buffer;
        var start := Position(buffer, START);
        if start.None? {
          DecodeSkips(before, maxEventBytes, validXml);
          if |buffer| > 5 {
            buffer := buffer[|buffer| - 5..];
          }
          break;
        }
        buffer := buffer[start.value..];
        var found := Position(buffer, END);
        if found.None? {
          DecodeWaits(before, start.value, maxEventBytes, validXml);
          if |buffer| > maxEventBytes {
            return Err(FrameTooLarge);
          }
          break;
        }
        var end := found.value + |END|;
        DecodeCuts(before, start.value, found.value, maxEventBytes, validXml);
        if end > maxEventBytes {
          buffer := buffer[end..];
          return Err(FrameTooLarge);
        }
        var frame := buffer[..end];
        buffer := buffer[end..];
        if !validXml(frame) {
          return Err(Xml);
        }
        events := events + [frame];
      }
      assert events + [] == events;
      return Ok(events);
    }
  }
}
