/** Reading a file through its views, one view buffered at a time. */
module ReaderAt {
  import opened Common
  import opened Chunks
  import opened Views

  /** The blob of the view is there and long enough. */
  ghost predicate Fetchable(v: ChunkView, blobs: Blobs) {
    v.fileId in blobs && 0 <= v.offset && v.offset + v.size <= |blobs[v.fileId]|
  }

  function ViewBytes(v: ChunkView, blobs: Blobs): seq<byte>
    requires Fetchable(v, blobs) && 0 <= v.size
  {
    blobs[v.fileId][v.offset..v.offset + v.size]
  }

  /** The byte the views show at position p. */
  function ViewByte(views: seq<ChunkView>, blobs: Blobs, p: int): Option<byte> {
    match Place(views, p)
    case None => None
    case Some((id, at)) => if id in blobs && 0 <= at < |blobs[id]| then Some(blobs[id][at]) else None
  }

  /** The views are those of positions [start, end). */
  ghost predicate Spans(views: seq<ChunkView>, start: int, end: int) {
    Contiguous(views, start) && EndOf(views, start) == end
  }

  lemma {:induction false} ContiguousEnd(views: seq<ChunkView>, start: int)
    requires Contiguous(views, start)
    ensures start <= EndOf(views, start)
    ensures forall i :: 0 <= i < |views| ==>
      start <= views[i].logicOffset && views[i].size > 0 && views[i].logicOffset + views[i].size <= EndOf(views, start)
    ensures views != [] ==> start < EndOf(views, start)
  {
    if views != [] {
      ContiguousEnd(views[1..], start + views[0].size);
      assert forall i :: 1 <= i < |views| ==> views[i] == views[1..][i-1];
    }
  }

  /** View k is the first one that covers p. */
  ghost predicate FirstAt(views: seq<ChunkView>, p: int, k: int) {
    0 <= k < |views| && views[k].Covers(p) && forall i :: 0 <= i < k ==> !views[i].Covers(p)
  }

  lemma {:induction false} PlaceAt(views: seq<ChunkView>, start: int, k: int, p: int)
    requires Contiguous(views, start) && 0 <= k < |views| && views[k].Covers(p)
    ensures Place(views, p) == Some((views[k].fileId, views[k].offset + p - views[k].logicOffset))
    ensures FirstAt(views, p, k)
  {
    ContiguousEnd(views[1..], start + views[0].size);
    if k > 0 {
      assert views[k] == views[1..][k-1];
      PlaceAt(views[1..], start + views[0].size, k - 1, p);
      assert forall i :: 1 <= i < k ==> views[i] == views[1..][i-1];
    }
  }

  lemma {:induction false} CoveredInside(views: seq<ChunkView>, start: int, p: int)
    requires Contiguous(views, start)
    ensures start <= p < EndOf(views, start) <==> exists k :: 0 <= k < |views| && views[k].Covers(p)
  {
    ContiguousEnd(views, start);
    if views != [] && start <= p < EndOf(views, start) {
      if views[0].Covers(p) {
      } else {
        CoveredInside(views[1..], start + views[0].size, p);
        var k :| 0 <= k < |views[1..]| && views[1..][k].Covers(p);
        assert views[k+1].Covers(p);
      }
    }
  }

  /** The bytes the views show from `offset` on, n of them. */
  ghost predicate ShowsFrom(views: seq<ChunkView>, blobs: Blobs, offset: int, bytes: seq<byte>) {
    forall j :: 0 <= j < |bytes| ==> ViewByte(views, blobs, offset + j) == Some(bytes[j])
  }

  /** Position q lies in a view whose blob can be fetched. */
  ghost predicate Readable(views: seq<ChunkView>, blobs: Blobs, q: int) {
    exists k :: 0 <= k < |views| && views[k].Covers(q) && Fetchable(views[k], blobs)
  }

  /** The bytes are the ones shown from `offset` on, all in views that can be fetched. */
  ghost predicate ReadSoFar(views: seq<ChunkView>, blobs: Blobs, offset: int, bytes: seq<byte>) {
    && ShowsFrom(views, blobs, offset, bytes)
    && forall q :: offset <= q < offset + |bytes| ==> Readable(views, blobs, q)
  }

  lemma ReadStep(views: seq<ChunkView>, blobs: Blobs, offset: int, a: seq<byte>, b: seq<byte>)
    requires ReadSoFar(views, blobs, offset, a) && ReadSoFar(views, blobs, offset + |a|, b)
    ensures ReadSoFar(views, blobs, offset, a + b)
  {
    ShowsConcat(views, blobs, offset, a, b);
  }

  /** `now` is `mid` with n cells written from cell k on. */
  lemma Spliced<T>(was: seq<T>, mid: seq<T>, now: seq<T>, k: nat, n: nat)
    requires k + n <= |was| == |mid| == |now| && mid[k..] == was[k..]
    requires now[..k] == mid[..k] && now[k + n..] == mid[k + n..]
    ensures now[k + n..] == was[k + n..] && now[..k + n] == mid[..k] + now[k..k + n]
  {
    assert mid[k + n..] == mid[k..][n..] && was[k + n..] == was[k..][n..];
  }

  /** Only one view covers a position. */
  lemma OneView(views: seq<ChunkView>, start: int, i: int, k: int, q: int)
    requires Contiguous(views, start) && 0 <= i < |views| && 0 <= k < |views| && views[i].Covers(q)
    requires views[k].Covers(q)
    ensures i == k
  {
    PlaceAt(views, start, i, q);
    PlaceAt(views, start, k, q);
  }

  class ChunkReadAt {
    const chunkViews: seq<ChunkView>
    const blobs: Blobs
    ghost const start: int
    var buffer: seq<byte>
    var bufferOffset: int
    var chunkCache: Blobs

    /** The buffer holds the view it says it does, or nothing if that could not be fetched; the cache is right. */
    ghost predicate Valid()
      reads this
    {
      && 0 <= start && Contiguous(chunkViews, start) && (forall v :: v in chunkViews ==> 0 <= v.offset)
      && (forall id :: id in chunkCache ==> id in blobs && chunkCache[id] == blobs[id])
      && (bufferOffset == -1 || exists v :: v in chunkViews && Buffered(v))
    }

    ghost predicate Buffered(v: ChunkView)
      reads this
    {
      && v.logicOffset == bufferOffset && v.size > 0
      && buffer == if Fetchable(v, blobs) then ViewBytes(v, blobs) else []
    }

    /** An earlier fetch of the view at `offset` failed and left an empty buffer, and `offset` is not its start. */
    ghost predicate Stuck(offset: int)
      reads this
    {
      exists v :: v in chunkViews && v.Covers(offset) && v.logicOffset == bufferOffset < offset && !Fetchable(v, blobs)
    }

    constructor (views: seq<ChunkView>, blobs: Blobs, chunkCache: Blobs, ghost start: int)
      requires 0 <= start && Contiguous(views, start) && forall v :: v in views ==> 0 <= v.offset
      requires forall id :: id in chunkCache ==> id in blobs && chunkCache[id] == blobs[id]
      ensures Valid() && chunkViews == views && this.blobs == blobs && this.start == start
      ensures forall offset :: !Stuck(offset)
    {
      chunkViews, this.blobs, this.start := views, blobs, start;
      buffer, bufferOffset, this.chunkCache := [], -1, chunkCache;
      new;
      ContiguousEnd(views, start);
    }

    /** The bytes of a view, unless its blob is gone or too short. */
    method FetchChunkData(v: ChunkView) returns (ok: bool, data: seq<byte>)
      requires Valid() && v in chunkViews && v.size > 0
      modifies this`chunkCache
      ensures Valid() && (ok <==> Fetchable(v, blobs))
      ensures data == if ok then ViewBytes(v, blobs) else []
    {
      var hasDataInCache := v.fileId in chunkCache;
      if !hasDataInCache && v.fileId !in blobs {
        return false, [];
      }
      var chunkData := if hasDataInCache then chunkCache[v.fileId] else blobs[v.fileId];
      if |chunkData| < v.offset + v.size {
        return false, [];
      }
      ok, data := true, chunkData[v.offset..v.offset + v.size];
      if !hasDataInCache {
        chunkCache := chunkCache[v.fileId := chunkData];
      }
    }

    /** The first view that covers `offset`, or the number of views. */
    method FindView(offset: int) returns (k: nat)
      ensures k == |chunkViews| || FirstAt(chunkViews, offset, k)
      ensures k == |chunkViews| ==> forall i :: 0 <= i < |chunkViews| ==> !chunkViews[i].Covers(offset)
    {
      k := 0;
      while k < |chunkViews|
        invariant k <= |chunkViews|
        invariant forall i :: 0 <= i < k ==> !chunkViews[i].Covers(offset)
      {
        if chunkViews[k].logicOffset <= offset && offset < chunkViews[k].logicOffset + chunkViews[k].size {
          break;
        }
        k := k + 1;
      }
    }

    /** Makes the buffer hold view k; it fails only when it has to fetch. */
    method FillBuffer(k: nat) returns (ok: bool)
      requires Valid() && k < |chunkViews|
      modifies this
      ensures Valid() && Buffered(chunkViews[k])
      ensures ok <==> Fetchable(chunkViews[k], blobs) || old(bufferOffset) == chunkViews[k].logicOffset
    {
      var v := chunkViews[k];
      ContiguousEnd(chunkViews, start);
      ok := true;
      if bufferOffset != v.logicOffset {
        ok, buffer := FetchChunkData(v);
        bufferOffset := v.logicOffset;
      } else {
        ghost var w :| w in chunkViews && Buffered(w);
        ghost var i :| 0 <= i < |chunkViews| && chunkViews[i] == w;
        assert chunkViews[i].Covers(v.logicOffset) && chunkViews[k].Covers(v.logicOffset);
        OneView(chunkViews, start, i, k, v.logicOffset);
      }
    }

    /**
     Reads from the view at `offset` into p[base..].  The count is 0 where no view is or its blob cannot be fetched; the
     read panics on the empty buffer that a failed fetch left behind.
     */
    method DoReadAt(p: array<byte>, base: nat, offset: int) returns (n: nat, panicked: bool)
      requires Valid() && base < p.Length
      modifies this, p
      ensures Valid() && base + n <= p.Length && (panicked <==> old(Stuck(offset))) && (panicked ==> n == 0)
      ensures p[..base] == old(p[..base]) && p[base + n..] == old(p[base + n..])
      ensures ReadSoFar(chunkViews, blobs, offset, p[base..base + n])
      ensures n == 0 <==> !Readable(chunkViews, blobs, offset)
      ensures n > 0 ==> !Stuck(offset + n)
    {
      hide *;
      var k, have;
      k, have, panicked := PrepareView(offset);
      if have {
        n := CopyView(p, base, offset, k);
      } else {
        n := 0;
        NothingRead(offset, p[base..base]);
      }
    }

    /** Finds the view at `offset` and gets it into the buffer. */
    method PrepareView(offset: int) returns (k: nat, have: bool, panicked: bool)
      requires Valid()
      modifies this
      ensures Valid() && (panicked <==> old(Stuck(offset))) && !(have && panicked)
      ensures have <==> Readable(chunkViews, blobs, offset)
      ensures have ==>
        k < |chunkViews| && chunkViews[k].Covers(offset) && Buffered(chunkViews[k]) && Fetchable(chunkViews[k], blobs)
    {
      k := FindView(offset);
      have, panicked := false, false;
      if k == |chunkViews| {
        return;
      }
      OnlyView(offset, k);
      ContiguousEnd(chunkViews, start);
      hide Readable;
      hide Stuck;
      hide Contiguous;
      var ok := FillBuffer(k);
      if ok {
        panicked := offset - bufferOffset > |buffer|;
        have := offset - bufferOffset < |buffer|;
      }
    }

    lemma NothingRead(offset: int, bytes: seq<byte>)
      requires bytes == []
      ensures ReadSoFar(chunkViews, blobs, offset, bytes)
    {}

    /** Copies what the buffer has from `offset` on. */
    method CopyView(p: array<byte>, base: nat, offset: int, ghost k: nat) returns (n: nat)
      requires Valid() && base < p.Length && k < |chunkViews| && chunkViews[k].Covers(offset)
      requires Buffered(chunkViews[k]) && Fetchable(chunkViews[k], blobs)
      modifies p
      ensures 0 < n && base + n <= p.Length
      ensures p[..base] == old(p[..base]) && p[base + n..] == old(p[base + n..])
      ensures ReadSoFar(chunkViews, blobs, offset, p[base..base + n]) && !Stuck(offset + n)
    {
      n := Min(p.Length - base, |buffer| - (offset - bufferOffset));
      var bytes := buffer[offset - bufferOffset..][..n];
      ViewShows(chunkViews, blobs, start, k, offset, bytes);
      NotStuck(offset + n, k);
      hide *;
      CopyInto(p, base, bytes);
    }

    /** View k is the one at `offset`, so it decides. */
    lemma OnlyView(offset: int, k: nat)
      requires Valid() && k < |chunkViews| && chunkViews[k].Covers(offset)
      ensures Readable(chunkViews, blobs, offset) <==> Fetchable(chunkViews[k], blobs)
      ensures Stuck(offset) <==>
        chunkViews[k].logicOffset == bufferOffset < offset && !Fetchable(chunkViews[k], blobs)
    {
      forall i | 0 <= i < |chunkViews| && chunkViews[i].Covers(offset) ensures i == k {
        OneView(chunkViews, start, i, k, offset);
      }
    }

    /** With a fetched view in the buffer nothing is stuck. */
    lemma NotStuck(offset: int, k: nat)
      requires Valid() && k < |chunkViews| && Buffered(chunkViews[k]) && Fetchable(chunkViews[k], blobs)
      ensures !Stuck(offset)
    {
      forall v | v in chunkViews && v.Covers(offset) && v.logicOffset == bufferOffset ensures Fetchable(v, blobs) {
        var i :| 0 <= i < |chunkViews| && chunkViews[i] == v;
        OneView(chunkViews, start, i, k, bufferOffset);
      }
    }

    /**
     Fills p with the bytes the views show from `offset` on, up to the first position that cannot be read, which is
     reported as the end of the file.
     */
    method ReadAt(p: array<byte>, offset: int) returns (n: nat, eof: bool, panicked: bool)
      requires Valid()
      modifies this, p
      ensures Valid() && n <= p.Length && p[n..] == old(p[n..])
      ensures panicked <==> p.Length > 0 && old(Stuck(offset))
      ensures panicked ==> n == 0
      ensures ReadSoFar(chunkViews, blobs, offset, p[..n])
      ensures !panicked ==> n == p.Length || !Readable(chunkViews, blobs, offset + n)
      ensures !panicked ==> (eof <==> n < p.Length)
    {
      hide *;
      n, eof, panicked := 0, false, false;
      NothingRead(offset, p[..0]);
      while n < p.Length && !eof
        invariant Valid() && n <= p.Length && p[n..] == old(p[n..])
        invariant ReadSoFar(chunkViews, blobs, offset, p[..n])
        invariant !eof ==> (Stuck(offset + n) <==> n == 0 && old(Stuck(offset)))
        invariant p.Length > 0 && old(Stuck(offset)) ==> n == 0 && !eof
        invariant eof ==> n < p.Length && !Readable(chunkViews, blobs, offset + n)
        decreases p.Length - n, !eof
      {
        ghost var mid := p[..];
        var readCount;
        readCount, panicked := DoReadAt(p, n, offset + n);
        Spliced(old(p[..]), mid, p[..], n, readCount);
        if panicked {
          return;
        }
        ReadStep(chunkViews, blobs, offset, mid[..n], p[n..n + readCount]);
        n := n + readCount;
        eof := readCount == 0;
      }
    }
  }

  /** A stretch of view k's bytes is what the views show there. */
  lemma ViewShows(views: seq<ChunkView>, blobs: Blobs, start: int, k: int, offset: int, bytes: seq<byte>)
    requires Contiguous(views, start) && 0 <= k < |views| && Fetchable(views[k], blobs)
    requires views[k].logicOffset <= offset && offset + |bytes| <= views[k].logicOffset + views[k].size
    requires bytes == ViewBytes(views[k], blobs)[offset - views[k].logicOffset..][..|bytes|]
    ensures ReadSoFar(views, blobs, offset, bytes)
  {
    forall q | offset <= q < offset + |bytes| ensures Readable(views, blobs, q) {
      assert views[k].Covers(q);
    }
    forall j | 0 <= j < |bytes| ensures ViewByte(views, blobs, offset + j) == Some(bytes[j]) {
      PlaceAt(views, start, k, offset + j);
    }
  }

  lemma ShowsConcat(views: seq<ChunkView>, blobs: Blobs, offset: int, a: seq<byte>, b: seq<byte>)
    requires ShowsFrom(views, blobs, offset, a) && ShowsFrom(views, blobs, offset + |a|, b)
    ensures ShowsFrom(views, blobs, offset, a + b)
  {
    forall j | 0 <= j < |a + b| ensures ViewByte(views, blobs, offset + j) == Some((a + b)[j]) {
      if j >= |a| {
        assert offset + j == offset + |a| + (j - |a|);
      }
    }
  }
}
