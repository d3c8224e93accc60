/** The write side of one connection: a link that may break, and the fragmenter (src/scenarios.rs:833-852). */
module Outgoing {
  import opened Wrappers
  import opened Marker
  import opened Numbers

  /**
   A connection's fate, chosen by its environment: once `breaksAt` bytes are due the write in
   progress fails.  Every failing write, after any number of its bytes, is such a link.
   */
  datatype Link = Link(breaksAt: Option<nat>, timedOut: bool)
  {
    predicate Breaks(wire: Bytes, n: nat) {
      n > 0 && breaksAt.Some? && |wire| + n >= breaksAt.value
    }

    /** What the peer has been sent once `bytes` were written, or the write failed. */
    function Carry(wire: Bytes, bytes: Bytes): Bytes {
      if !Breaks(wire, |bytes|) then wire + bytes
      else if breaksAt.value <= |wire| then wire
      else wire + bytes[..breaksAt.value - |wire|]
    }
  }

  class ConnectionWriter {
    const link: Link
    var wire: Bytes
    /** The writes that completed. */
    var writes: seq<Bytes>

    constructor (link: Link)
      ensures this.link == link && wire == [] && writes == []
    {
      this.link := link;
      wire, writes := [], [];
    }

    method WriteAll(bytes: Bytes) returns (ok: bool)
      modifies this
      ensures wire == link.Carry(old(wire), bytes)
      ensures ok <==> !link.Breaks(old(wire), |bytes|)
      ensures writes == if ok then old(writes) + [bytes] else old(writes)
    {
      ok := !link.Breaks(wire, |bytes|);
      wire := link.Carry(wire, bytes);
      if ok {
        writes := writes + [bytes];
      }
    }
  }

  /** The size asked for by the `k`-th item of the cycled chunk list; never zero. */
  function ChunkSize(chunks: seq<nat>, k: nat): nat
    requires chunks != []
  {
    Max(1, chunks[k % |chunks|])
  }

  /** The writes that `bytes` is cut into, from the `k`-th chunk size on. */
  function Fragments(bytes: Bytes, chunks: seq<nat>, k: nat): (fs: seq<Bytes>)
    requires chunks != []
    ensures Flatten(fs) == bytes
    decreases |bytes|
  {
    if bytes == [] then []
    else
      var n := Min(ChunkSize(chunks, k), |bytes|);
      [bytes[..n]] + Fragments(bytes[n..], chunks, k + 1)
  }

  /**
   Write `j` is asked for by the item `k + j` of the list, which is gone through again and again: it has that many
   bytes, or one where the list says zero; only the last may be shorter.
   */
  lemma {:induction false} FragmentSize(bytes: Bytes, chunks: seq<nat>, k: nat, j: nat)
    requires chunks != [] && j < |Fragments(bytes, chunks, k)|
    ensures var fs := Fragments(bytes, chunks, k);
      var item := chunks[(k + j) % |chunks|];
      var size := if item == 0 then 1 else item;
      0 < |fs[j]| <= size && (j + 1 < |fs| ==> |fs[j]| == size)
    decreases |bytes|
  {
    ChunkIsPositive(chunks, k);
    var n := Min(ChunkSize(chunks, k), |bytes|);
    if j > 0 {
      FragmentSize(bytes[n..], chunks, k + 1, j - 1);
      assert k + 1 + (j - 1) == k + j;
    }
  }

  lemma ChunkIsPositive(chunks: seq<nat>, k: nat)
    requires chunks != []
    ensures ChunkSize(chunks, k) >= 1
  {
  }

  /** Two writes in a row are one write of both. */
  lemma CarryConcat(link: Link, wire: Bytes, a: Bytes, b: Bytes)
    ensures var first := link.Carry(wire, a);
      if link.Breaks(wire, |a|) then link.Breaks(wire, |a + b|) && link.Carry(wire, a + b) == first
      else link.Carry(first, b) == link.Carry(wire, a + b) && (link.Breaks(first, |b|) <==> link.Breaks(wire, |a + b|))
  {
    assert b == [] ==> a + b == a;
    if link.Breaks(wire, |a|) {
      assert link.breaksAt.value > |wire| ==>
          (a + b)[..link.breaksAt.value - |wire|] == a[..link.breaksAt.value - |wire|];
    } else {
      assert (wire + a) + b == wire + (a + b);
      if link.Breaks(wire + a, |b|) && link.breaksAt.value > |wire + a| {
        var n := link.breaksAt.value - |wire|;
        assert (a + b)[..n] == a + b[..n - |a|];
      }
    }
  }

  /**
   However a payload is cut, the peer gets the same bytes and the same payloads fail.  The writes
   that completed are the fragments, all of them unless the link broke.
   */
  method WriteFragmented(writer: ConnectionWriter, bytes: Bytes, chunks: seq<nat>) returns (ok: bool)
    modifies writer
    ensures writer.wire == writer.link.Carry(old(writer.wire), bytes)
    ensures ok <==> !writer.link.Breaks(old(writer.wire), |bytes|)
    ensures Written(old(writer.writes), if chunks == [] then [bytes] else Fragments(bytes, chunks, 0), writer.writes, ok)
  {
    if chunks == [] {
      ok := writer.WriteAll(bytes);
    } else {
      ok := WriteChunks(writer, bytes, chunks);
    }
  }

  ghost predicate Written(before: seq<Bytes>, fragments: seq<Bytes>, after: seq<Bytes>, ok: bool) {
    && before <= after <= before + fragments
    && (ok <==> after == before + fragments)
  }

  method WriteChunks(writer: ConnectionWriter, bytes: Bytes, chunks: seq<nat>) returns (ok: bool)
    requires chunks != []
    modifies writer
    ensures writer.wire == writer.link.Carry(old(writer.wire), bytes)
    ensures ok <==> !writer.link.Breaks(old(writer.wire), |bytes|)
    ensures Written(old(writer.writes), Fragments(bytes, chunks, 0), writer.writes, ok)
  {
    ghost var job := Job(writer.link, writer.wire, writer.writes, bytes, chunks);
    var offset, k := 0, 0;
    Started(job);
    hide Progress, Link.Carry, Link.Breaks, Fragments, Written, ChunkSize;
    while offset != |bytes|
      invariant 0 <= offset <= |bytes|
      invariant Progress(job, offset, k, writer.wire, writer.writes)
      decreases |bytes| - offset
    {
      ChunkIsPositive(chunks, k);
      var end := Min(offset + ChunkSize(chunks, k), |bytes|);
      if writer.link.Breaks(writer.wire, end - offset) {
        Breaks(job, offset, end, k, writer.wire, writer.writes);
      } else {
        Advances(job, offset, end, k, writer.wire, writer.writes);
      }
      ok := writer.WriteAll(bytes[offset..end]);
      if !ok {
        return;
      }
      offset, k := end, k + 1;
    }
    Finished(job, k, writer.wire, writer.writes);
    return true;
  }

  datatype Job = Job(link: Link, wire: Bytes, writes: seq<Bytes>, bytes: Bytes, chunks: seq<nat>)

  /** `offset` bytes in `k` fragments are out, and the fragments still to come complete the list. */
  ghost predicate Progress(job: Job, offset: nat, k: nat, wire: Bytes, writes: seq<Bytes>) {
    && job.chunks != [] && offset <= |job.bytes|
    && wire == job.link.Carry(job.wire, job.bytes[..offset])
    && !job.link.Breaks(job.wire, offset)
    && job.writes <= writes
    && writes + Fragments(job.bytes[offset..], job.chunks, k) == job.writes + Fragments(job.bytes, job.chunks, 0)
  }

  lemma Started(job: Job)
    requires job.chunks != []
    ensures Progress(job, 0, 0, job.wire, job.writes)
  {
    CarryNothing(job.link, job.wire);
    assert job.bytes[..0] == [] && job.bytes[0..] == job.bytes;
  }

  lemma Advances(job: Job, offset: nat, end: nat, k: nat, wire: Bytes, writes: seq<Bytes>)
    requires Progress(job, offset, k, wire, writes) && offset < |job.bytes|
    requires end == Min(offset + ChunkSize(job.chunks, k), |job.bytes|) && offset <= end
    requires !job.link.Breaks(wire, end - offset)
    ensures Progress(job, end, k + 1, job.link.Carry(wire, job.bytes[offset..end]), writes + [job.bytes[offset..end]])
  {
    var fragment := job.bytes[offset..end];
    OneMoreFragment(job.link, job.wire, job.bytes, offset, end);
    NextFragment(job.bytes, job.chunks, offset, k);
    hide Link.Carry, Link.Breaks, Fragments, ChunkSize;
    var left := Fragments(job.bytes[end..], job.chunks, k + 1);
    OneFragmentMore(writes, fragment, left);
    assert job.bytes[..end] == job.bytes[..offset] + fragment;
  }

  lemma OneFragmentMore(writes: seq<Bytes>, fragment: Bytes, left: seq<Bytes>)
    ensures (writes + [fragment]) + left == writes + ([fragment] + left) && writes <= writes + [fragment]
  {
  }

  lemma Breaks(job: Job, offset: nat, end: nat, k: nat, wire: Bytes, writes: seq<Bytes>)
    requires Progress(job, offset, k, wire, writes) && offset < |job.bytes|
    requires end == Min(offset + ChunkSize(job.chunks, k), |job.bytes|) && offset <= end
    requires job.link.Breaks(wire, end - offset)
    ensures job.link.Breaks(job.wire, |job.bytes|)
    ensures job.link.Carry(wire, job.bytes[offset..end]) == job.link.Carry(job.wire, job.bytes)
    ensures Written(job.writes, Fragments(job.bytes, job.chunks, 0), writes, false)
  {
    OneMoreFragment(job.link, job.wire, job.bytes, offset, end);
    NextFragment(job.bytes, job.chunks, offset, k);
    hide Link.Carry, Link.Breaks, Fragments, ChunkSize;
  }

  lemma Finished(job: Job, k: nat, wire: Bytes, writes: seq<Bytes>)
    requires Progress(job, |job.bytes|, k, wire, writes)
    ensures wire == job.link.Carry(job.wire, job.bytes) && !job.link.Breaks(job.wire, |job.bytes|)
    ensures Written(job.writes, Fragments(job.bytes, job.chunks, 0), writes, true)
  {
    assert job.bytes[..|job.bytes|] == job.bytes && job.bytes[|job.bytes|..] == [];
    assert writes + [] == writes;
  }

  lemma NextFragment(bytes: Bytes, chunks: seq<nat>, offset: nat, k: nat)
    requires offset < |bytes| && chunks != []
    ensures var end := Min(offset + ChunkSize(chunks, k), |bytes|);
      Fragments(bytes[offset..], chunks, k) == [bytes[offset..end]] + Fragments(bytes[end..], chunks, k + 1)
  {
    var end := Min(offset + ChunkSize(chunks, k), |bytes|);
    assert bytes[offset..][..end - offset] == bytes[offset..end];
    assert bytes[offset..][end - offset..] == bytes[end..];
  }

  lemma CarryNothing(link: Link, wire: Bytes)
    ensures link.Carry(wire, []) == wire && !link.Breaks(wire, 0)
  {
    assert wire + [] == wire;
  }

  /** What one more fragment does to the wire, and to the write of the whole payload. */
  lemma OneMoreFragment(link: Link, wire: Bytes, bytes: Bytes, offset: nat, end: nat)
    requires offset <= end <= |bytes| && !link.Breaks(wire, offset)
    ensures var so_far, fragment := link.Carry(wire, bytes[..offset]), bytes[offset..end];
      && link.Carry(so_far, fragment) == link.Carry(wire, bytes[..end])
      && (link.Breaks(so_far, |fragment|) <==> link.Breaks(wire, end))
      && (link.Breaks(wire, end) ==> link.Breaks(wire, |bytes|) && link.Carry(wire, bytes) == link.Carry(wire, bytes[..end]))
  {
    CarryConcat(link, wire, bytes[..offset], bytes[offset..end]);
    CarryConcat(link, wire, bytes[..end], bytes[end..]);
    assert bytes[..offset] + bytes[offset..end] == bytes[..end];
    assert bytes[..end] + bytes[end..] == bytes;
  }
}
