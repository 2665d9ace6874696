/** The chunked body buffer (xnet/http2/databuffer.go) as a queue of bytes. */
module DataBuffer {
  import opened Frames

  const MAX_CHUNK: nat := 16384

  /** The size classes of the chunk pools. */
  function ChunkSize(want: int): (n: nat)
    ensures 1024 <= n <= MAX_CHUNK && (want <= MAX_CHUNK ==> want <= n)
  {
    if want <= 1024 then 1024
    else if want <= 2048 then 2048
    else if want <= 4096 then 4096
    else if want <= 8192 then 8192
    else 16384
  }

  /** The chunks are distinct and lie one after the other from offs[0] on. */
  ghost predicate Layout(chunks: seq<array<Byte>>, offs: seq<nat>) {
    && |offs| == |chunks| && (forall k :: 0 <= k < |chunks| ==> 1024 <= chunks[k].Length <= MAX_CHUNK)
    && (forall k :: 0 <= k < |chunks| - 1 ==> offs[k + 1] == offs[k] + chunks[k].Length)
    && (forall k, l :: 0 <= k < l < |chunks| ==> chunks[k] != chunks[l])
  }

  /** The chunks hold the bytes of written from offs[0] on. */
  ghost predicate Holds(chunks: seq<array<Byte>>, offs: seq<nat>, written: seq<Byte>)
    requires |offs| == |chunks|
    reads chunks
  {
    forall k, i :: 0 <= k < |chunks| && 0 <= i < chunks[k].Length && offs[k] + i < |written| ==>
        chunks[k][i] == written[offs[k] + i]
  }

  lemma LayoutAdded(chunks: seq<array<Byte>>, offs: seq<nat>, chunk: array<Byte>, at: nat)
    requires Layout(chunks, offs) && chunk !in chunks && 1024 <= chunk.Length <= MAX_CHUNK
    requires chunks != [] ==> offs[|chunks| - 1] + chunks[|chunks| - 1].Length == at
    ensures Layout(chunks + [chunk], offs + [at])
  {
  }

  lemma HoldsAdded(chunks: seq<array<Byte>>, offs: seq<nat>, written: seq<Byte>, chunk: array<Byte>)
    requires |offs| == |chunks| && Holds(chunks, offs, written)
    ensures Holds(chunks + [chunk], offs + [|written|], written)
  {
  }

  lemma LayoutLengths(chunks: seq<array<Byte>>, offs: seq<nat>)
    requires Layout(chunks, offs)
    ensures |offs| == |chunks|
  {
  }

  class Buffer {
    var chunks: seq<array<Byte>>
    var r: nat
    var w: nat
    var size: nat
    var expected: int
    ghost var written: seq<Byte>    // every byte ever written
    ghost var offs: seq<nat>        // where in written each chunk starts

    constructor (expected: int)
      ensures Valid() && Contents() == [] && written == [] && this.expected == expected && chunks == []
    {
      chunks, r, w, size, written, offs := [], 0, 0, 0, [], [];
      this.expected := expected;
    }

    ghost predicate Valid()
      reads this, chunks
    {
      && Layout(chunks, offs) && Holds(chunks, offs, written) && size <= |written|
      && (chunks == [] ==> size == 0 && r == 0)
      && (chunks != [] ==>
            var m := |chunks| - 1;
            && r < chunks[0].Length && 0 < w <= chunks[m].Length
            && offs[0] + r == |written| - size && offs[m] + w == |written|)
    }

    /** The bytes not read yet. */
    ghost function Contents(): (s: seq<Byte>)
      requires size <= |written|
      reads this
    {
      written[|written| - size..]
    }

    /** The space allocated beyond the bytes held is less than two of the
        largest chunks. */
    lemma Waste()
      requires Valid()
      ensures Allocated(chunks) - size < 2 * MAX_CHUNK
    {
      if chunks != [] { AllocatedIs(chunks, offs); }
    }

    /** bytesFromFirstChunk: the range in chunks[0]. */
    method FirstRange() returns (end: nat)
      requires Valid() && size > 0
      ensures chunks != [] && r < end <= chunks[0].Length && end - r <= size
      ensures end == if |chunks| == 1 then w else chunks[0].Length
      ensures chunks[0][r..end] == Contents()[..end - r]
    {
      if |chunks| == 1 {
        end := w;
      } else {
        assert offs[1] <= offs[|chunks| - 1] by { OffsAscend(chunks, offs, 1, |chunks| - 1); }
        end := chunks[0].Length;
      }
    }

    /** One turn of the loop of Read: up to room bytes of the first chunk. */
    method TakeFirst(room: nat) returns (got: seq<Byte>)
      requires Valid() && size > 0 && room > 0
      modifies this`r, this`size, this`chunks, this`offs
      ensures Valid() && 0 < |got| <= room && |got| <= old(size) && size == old(size) - |got|
      ensures got == old(Contents())[..|got|] && forall c :: c in chunks ==> c in old(chunks)
    {
      hide Layout, Holds;
      var end := FirstRange();
      var n := if end - r <= room then end - r else room;
      got := chunks[0][r..r + n];
      assert got == chunks[0][r..end][..n];
      r := r + n;
      size := size - n;
      if r == chunks[0].Length {
        DropFirst();
      }
    }

    /** The first chunk has been read and goes back to its pool. */
    method DropFirst()
      requires chunks != [] && Layout(chunks, offs) && Holds(chunks, offs, written) && size <= |written|
      requires r == chunks[0].Length && 0 < w <= chunks[|chunks| - 1].Length
      requires offs[0] + r == |written| - size && offs[|chunks| - 1] + w == |written|
      modifies this`chunks, this`offs, this`r
      ensures Valid() && forall c :: c in chunks ==> c in old(chunks)
    {
      var all := chunks;
      chunks, offs, r := chunks[1..], offs[1..], 0;
      assert forall k :: 0 <= k < |chunks| ==> chunks[k] == all[k + 1];
    }

    /** Read; false if there is nothing to read. */
    method Read(p: array<Byte>) returns (ntotal: nat, ok: bool)
      requires Valid() && p !in chunks
      modifies this, p
      ensures Valid() && ok == (old(size) > 0) && written == old(written) && expected == old(expected)
      ensures ntotal == if p.Length <= old(size) then p.Length else old(size)
      ensures p[..ntotal] == old(Contents())[..ntotal] && Contents() == old(Contents())[ntotal..]
    {
      hide Layout, Holds;
      ntotal := 0;
      if size == 0 {
        return 0, false;
      }
      while ntotal < p.Length && size > 0
        invariant Valid() && 0 <= ntotal <= p.Length && ntotal <= old(size) && size == old(size) - ntotal
        invariant written == old(written) && expected == old(expected) && p !in chunks
        invariant p[..ntotal] == old(Contents())[..ntotal]
      {
        ghost var c, t := Contents(), ntotal;
        var got := TakeFirst(p.Length - ntotal);
        CopyInto(p, ntotal, got);
        ntotal := ntotal + |got|;
        assert got == c[..|got|] == old(Contents())[t..ntotal];
        assert p[..ntotal] == p[..t] + p[t..ntotal];
      }
      ok := true;
    }

    /** The last chunk has room for more. */
    ghost predicate HasRoom()
      reads this, chunks
    {
      && Layout(chunks, offs) && Holds(chunks, offs, written) && chunks != [] && size <= |written|
      && var m := |chunks| - 1;
      w < chunks[m].Length && offs[m] + w == |written| && offs[0] + r == |written| - size && r < chunks[0].Length
    }

    /** lastChunkOrAlloc; the new chunk comes from the pool of its size. */
    method LastChunkOrAlloc(want: int)
      requires Valid()
      modifies this`chunks, this`offs, this`w, this`r
      ensures HasRoom()
      ensures old(chunks != [] && w < chunks[|chunks| - 1].Length) ==> chunks == old(chunks) && w == old(w)
      ensures !old(chunks != [] && w < chunks[|chunks| - 1].Length) ==>
                && |chunks| == |old(chunks)| + 1 && chunks[..|chunks| - 1] == old(chunks) && w == 0
                && fresh(chunks[|chunks| - 1]) && chunks[|chunks| - 1].Length == ChunkSize(want)
    {
      if |chunks| != 0 {
        var last := chunks[|chunks| - 1];
        if w < last.Length {
          return;
        }
      }
      hide Holds, Layout;
      var chunk := new Byte[ChunkSize(want)];
      LayoutLengths(chunks, offs);
      LayoutAdded(chunks, offs, chunk, |written|);
      HoldsAdded(chunks, offs, written, chunk);
      chunks := chunks + [chunk];
      w := 0;
      offs := offs + [|written|];
    }

    /** One turn of the loop of Write: as much of p as the last chunk takes. */
    method WriteChunk(p: seq<Byte>) returns (n: nat)
      requires Valid() && p != []
      modifies this, chunks
      ensures Valid() && 0 < n <= |p| && written == old(written) + p[..n] && size == old(size) + n
      ensures expected == old(expected) - n
      ensures forall i :: 0 <= i < |chunks| ==> chunks[i] in old(chunks) || fresh(chunks[i])
    {
      var want := if expected > |p| then expected else |p|;
      LastChunkOrAlloc(want);
      n := FillLast(p);
    }

    method FillLast(p: seq<Byte>) returns (n: nat)
      requires HasRoom() && p != []
      modifies this`w, this`size, this`expected, this`written, chunks[|chunks| - 1]
      ensures Valid() && 0 < n <= |p| && written == old(written) + p[..n] && size == old(size) + n
      ensures expected == old(expected) - n
    {
      ghost var m := |chunks| - 1;
      var last := chunks[|chunks| - 1];
      n := if last.Length - w <= |p| then last.Length - w else |p|;
      CopyInto(last, w, p[..n]);
      forall k, i | 0 <= k < m && 0 <= i < chunks[k].Length && offs[k] + i < |written|
        ensures chunks[k][i] == written[offs[k] + i]
      {
        assert chunks[k] != last && old(chunks[k][i]) == written[offs[k] + i];
      }
      forall i | 0 <= i < w ensures last[i] == written[offs[m] + i] {
        assert last[i] == last[..w][i] == old(last[i]);
      }
      HoldsMore(chunks, offs, written, p[..n], m, w);
      hide Holds;
      written := written + p[..n];
      w, size, expected := w + n, size + n, expected - n;
    }

    method Write(p: seq<Byte>) returns (ntotal: nat)
      requires Valid()
      modifies this, chunks
      ensures Valid() && ntotal == |p| && Contents() == old(Contents()) + p && written == old(written) + p
      ensures expected == old(expected) - |p|
    {
      hide Layout, Holds;
      ntotal := |p|;
      var rest := p;
      while |rest| > 0
        invariant Valid() && |rest| <= |p| && rest == p[|p| - |rest|..]
        invariant written == old(written) + p[..|p| - |rest|] && size == old(size) + |p| - |rest|
        invariant expected == old(expected) - (|p| - |rest|)
        invariant forall i :: 0 <= i < |chunks| ==> chunks[i] in old(chunks) || fresh(chunks[i])
      {
        ghost var t := |p| - |rest|;
        var n := WriteChunk(rest);
        assert p[..t + n] == p[..t] + rest[..n];
        rest := rest[n..];
      }
      assert p[..|p|] == p;
    }
  }

  /** The chunks once more, after part of the last one was filled. */
  lemma HoldsMore(chunks: seq<array<Byte>>, offs: seq<nat>, written: seq<Byte>, more: seq<Byte>, m: nat, w: nat)
    requires Layout(chunks, offs) && |chunks| == m + 1 && offs[m] + w == |written| && w + |more| <= chunks[m].Length
    requires forall k, i ::
               0 <= k < m && 0 <= i < chunks[k].Length && offs[k] + i < |written| ==>
                 chunks[k][i] == written[offs[k] + i]
    requires forall i :: 0 <= i < w ==> chunks[m][i] == written[offs[m] + i]
    requires chunks[m][w..w + |more|] == more
    ensures Holds(chunks, offs, written + more)
  {
    var all := written + more;
    forall k, i | 0 <= k < |chunks| && 0 <= i < chunks[k].Length
      && offs[k] + i < |all| ensures chunks[k][i] == all[offs[k] + i] {
      if k < m {
        OffsAscend(chunks, offs, k, m);
      } else if i >= w {
        assert chunks[m][i] == chunks[m][w..w + |more|][i - w];
      }
    }
  }

  /** copy(p[at:], got) */
  method CopyInto(p: array<Byte>, at: nat, got: seq<Byte>)
    requires at + |got| <= p.Length
    modifies p
    ensures p[..at] == old(p[..at]) && p[at..at + |got|] == got
    ensures forall k :: at + |got| <= k < p.Length ==> p[k] == old(p[k])
  {
    for i := 0 to |got|
      invariant p[at..at + i] == got[..i]
      invariant forall k :: 0 <= k < p.Length && !(at <= k < at + |got|) ==> p[k] == old(p[k])
    {
      p[at + i] := got[i];
      assert p[at..at + i + 1] == p[at..at + i] + [got[i]];
    }
  }

  ghost function Allocated(chunks: seq<array<Byte>>): nat {
    if chunks == [] then 0 else chunks[0].Length + Allocated(chunks[1..])
  }

  lemma {:induction false} AllocatedIs(chunks: seq<array<Byte>>, offs: seq<nat>)
    requires chunks != [] && Layout(chunks, offs)
    ensures Allocated(chunks) == offs[|chunks| - 1] + chunks[|chunks| - 1].Length - offs[0]
    decreases |chunks|
  {
    if |chunks| > 1 {
      var c, o := chunks[1..], offs[1..];
      assert forall k :: 0 <= k < |c| ==> c[k] == chunks[k + 1] && o[k] == offs[k + 1];
      AllocatedIs(c, o);
    } else {
      assert chunks[1..] == [];
    }
  }

  lemma {:induction false} OffsAscend(chunks: seq<array<Byte>>, offs: seq<nat>, i: nat, j: nat)
    requires Layout(chunks, offs) && i <= j < |chunks|
    ensures offs[i] <= offs[j] && (i < j ==> offs[i] + chunks[i].Length <= offs[j])
    decreases j
  {
    if i < j { OffsAscend(chunks, offs, i, j - 1); }
  }
}
