/** What a read of an open file returns: the bytes of the views as far as they reach, the dirty bytes over them. */
module FileReads {
  import opened Common
  import opened Chunks
  import opened Runs
  import opened Visibles
  import opened Visibility
  import opened Addresses
  import opened DirtyIntervals
  import opened FileStates
  import opened Views
  import opened ReaderAt

  const MAX_INT32: int := 0x7fff_ffff

  /** The views a read of the file is served from: those of the first MAX_INT32 positions. */
  function ReadViews(cache: seq<VisibleInterval>): seq<ChunkView> {
    ViewsFrom(cache, 0, MAX_INT32)
  }

  function ReadEnd(cache: seq<VisibleInterval>): int {
    EndOf(ReadViews(cache), 0)
  }

  lemma AddressOwner(vs: seq<VisibleInterval>, p: int)
    ensures Address(vs, p).Some? <==> Owner(vs, p).Some?
  {}

  /** Reads reach exactly the positions before the first hole and before MAX_INT32. */
  lemma ReadEndIs(cache: seq<VisibleInterval>, chunks: seq<FileChunk>, p: int)
    requires Shown(cache, chunks) && 0 <= p
    ensures p < ReadEnd(cache) <==> p < MAX_INT32 && forall q :: 0 <= q <= p ==> Newest(chunks, q).Some?
  {
    ViewsCoverPrefix(cache, 0, MAX_INT32);
    var end := ReadEnd(cache);
    if p < end {
      forall q | 0 <= q <= p ensures Newest(chunks, q).Some? {
        AddressOwner(cache, q);
        assert Owner(cache, q) == NewestId(chunks, q);
      }
    } else if end < MAX_INT32 {
      AddressOwner(cache, end);
      assert Owner(cache, end) == NewestId(chunks, end);
      assert Newest(chunks, end) == None && 0 <= end <= p;
    }
  }

  lemma ViewsFetchable(vs: seq<VisibleInterval>, chunks: seq<FileChunk>, blobs: Blobs, w: ChunkView)
    requires Shown(vs, chunks) && DistinctIds(chunks) && AllUploaded(chunks, blobs) && w in ReadViews(vs)
    ensures Fetchable(w, blobs)
  {
    ViewsWithin(vs, 0, MAX_INT32, w);
    var v :| v in vs && v.fileId == w.fileId && 0 <= w.offset && w.offset + w.size <= v.stop - v.start;
    var i :| 0 <= i < |vs| && vs[i] == v;
    ShownIds(vs, chunks);
    assert v.fileId in Ids(vs);
    var c :| c in chunks && c.fileId == v.fileId;
    InChunk(vs, chunks, i, c);
  }

  /** A position can be read exactly when the views reach it and the blob of the chunk shown there can be had. */
  lemma ReadableIs(vs: seq<VisibleInterval>, chunks: seq<FileChunk>, blobs: Blobs, have: Blobs, p: int)
    requires Shown(vs, chunks) && DistinctIds(chunks) && AllUploaded(chunks, blobs) && Grew(have, blobs)
    ensures Readable(ReadViews(vs), have, p) <==>
      0 <= p < ReadEnd(vs) && Newest(chunks, p).Some? && Newest(chunks, p).value.fileId in have
  {
    var views := ReadViews(vs);
    ViewsContiguous(vs, 0, MAX_INT32);
    CoveredInside(views, 0, p);
    if 0 <= p < ReadEnd(vs) {
      var k :| 0 <= k < |views| && views[k].Covers(p);
      PlaceAt(views, 0, k, p);
      ViewsPlace(vs, 0, MAX_INT32, p);
      assert Owner(vs, p) == NewestId(chunks, p);
      ViewsFetchable(vs, chunks, blobs, views[k]);
      OneReadable(views, have, k, p);
    }
  }

  lemma OneReadable(views: seq<ChunkView>, blobs: Blobs, k: nat, p: int)
    requires Contiguous(views, 0) && k < |views| && views[k].Covers(p)
    ensures Readable(views, blobs, p) <==> Fetchable(views[k], blobs)
  {
    if i :| 0 <= i < |views| && views[i].Covers(p) && Fetchable(views[i], blobs) {
      OneView(views, 0, i, k, p);
    }
  }

  /** Where no newer chunk hides the front of the chunk shown, the views show its stored byte. */
  lemma ViewShowsStored(vs: seq<VisibleInterval>, chunks: seq<FileChunk>, blobs: Blobs, have: Blobs, p: int)
    requires Shown(vs, chunks) && DistinctIds(chunks) && AllUploaded(chunks, blobs) && Grew(have, blobs)
    requires Readable(ReadViews(vs), have, p) && FrontShows(chunks, p)
    ensures ViewByte(ReadViews(vs), have, p) == Stored(chunks, blobs, p) && Stored(chunks, blobs, p).Some?
  {
    ReadableIs(vs, chunks, blobs, have, p);
    ViewsPlace(vs, 0, MAX_INT32, p);
    AddressRight(vs, chunks, p);
    assert Uploaded(Newest(chunks, p).value, blobs);
  }

  /** How many of the n positions from `offset` on can be read, up to the first that cannot. */
  ghost function Reach(views: seq<ChunkView>, blobs: Blobs, offset: int, n: nat): nat
    decreases n
  {
    if n == 0 || !Readable(views, blobs, offset) then 0 else 1 + Reach(views, blobs, offset + 1, n - 1)
  }

  lemma {:induction false} ReachIs(views: seq<ChunkView>, blobs: Blobs, offset: int, n: nat, k: nat)
    requires k <= n && (forall q :: offset <= q < offset + k ==> Readable(views, blobs, q))
    requires k == n || !Readable(views, blobs, offset + k)
    ensures Reach(views, blobs, offset, n) == k
    decreases n
  {
    if k > 0 {
      ReachIs(views, blobs, offset + 1, n - 1, k - 1);
    }
  }

  lemma {:induction false} ReachMeans(views: seq<ChunkView>, blobs: Blobs, offset: int, n: nat, j: nat)
    ensures j < Reach(views, blobs, offset, n) <==>
      j < n && forall q :: offset <= q <= offset + j ==> Readable(views, blobs, q)
    decreases n
  {
    if n > 0 && j > 0 && Readable(views, blobs, offset) {
      ReachMeans(views, blobs, offset + 1, n - 1, j - 1);
    }
  }

  /**
   A read of n bytes gets its byte j from the chunks exactly when there is no hole before it, it lies before MAX_INT32
   and the blobs of all chunks that show between `offset` and it can be had.
   */
  lemma ReadReaches(cache: seq<VisibleInterval>, chunks: seq<FileChunk>, blobs: Blobs, have: Blobs,
                    offset: int, n: nat, j: nat)
    requires Shown(cache, chunks) && DistinctIds(chunks) && AllUploaded(chunks, blobs) && Grew(have, blobs)
    requires 0 <= offset
    ensures j < Reach(ReadViews(cache), have, offset, n) <==>
      && j < n && offset + j < MAX_INT32 && (forall q :: 0 <= q <= offset + j ==> Newest(chunks, q).Some?)
      && forall q :: offset <= q <= offset + j ==> Newest(chunks, q).value.fileId in have
  {
    ReachMeans(ReadViews(cache), have, offset, n, j);
    ReadEndIs(cache, chunks, offset + j);
    forall q | offset <= q <= offset + j
      ensures Readable(ReadViews(cache), have, q) <==>
        q < ReadEnd(cache) && Newest(chunks, q).Some? && Newest(chunks, q).value.fileId in have
    {
      ReadableIs(cache, chunks, blobs, have, q);
    }
    hide Readable;
    hide ReadEnd;
    if j < n && forall q :: offset <= q <= offset + j ==> Readable(ReadViews(cache), have, q) {
      assert Readable(ReadViews(cache), have, offset + j);
    } else if j < n {
      var q :| offset <= q <= offset + j && !Readable(ReadViews(cache), have, q);
      assert offset + j < ReadEnd(cache) ==> Newest(chunks, q).Some? && Newest(chunks, q).value.fileId !in have;
    }
  }

  /** What a read of n bytes at `offset` returns: dirty bytes, else bytes of the views as far as they reach, else 0. */
  ghost predicate ReadShows(runs: seq<Run>, cache: seq<VisibleInterval>, blobs: Blobs, offset: int, n: nat,
                            data: seq<byte>)
  {
    forall j :: 0 <= j < |data| ==>
      Some(data[j]) ==
        if Lookup(runs, offset + j).Some? then Lookup(runs, offset + j)
        else if j < Reach(ReadViews(cache), blobs, offset, n) then ViewByte(ReadViews(cache), blobs, offset + j)
        else Some(0)
  }

  /** The first `end` bytes are those the views show from `offset` on, as far as they reach, the others are zero. */
  ghost predicate FromChunks(cache: seq<VisibleInterval>, blobs: Blobs, offset: int, bytes: seq<byte>, end: nat) {
    && end == Reach(ReadViews(cache), blobs, offset, |bytes|) <= |bytes|
    && ShowsFrom(ReadViews(cache), blobs, offset, bytes[..end])
    && forall j :: end <= j < |bytes| ==> bytes[j] == 0
  }

  /** Dirty bytes laid over a buffer that holds the views' bytes. */
  lemma Overlaid(runs: seq<Run>, cache: seq<VisibleInterval>, blobs: Blobs, offset: int,
                 mid: seq<byte>, end: nat, now: seq<byte>, total: nat)
    requires FromChunks(cache, blobs, offset, mid, end) && Filled(runs, offset, mid, now) && total <= |now|
    ensures ReadShows(runs, cache, blobs, offset, |now|, now[..total])
  {
    forall j | 0 <= j < total && Lookup(runs, offset + j) == None && j < end
      ensures ViewByte(ReadViews(cache), blobs, offset + j) == Some(now[j])
    {
      assert mid[..end][j] == mid[j];
    }
  }

  /**
   A read returns the byte last written at every position that is dirty, or that the views reach without a newer chunk
   hiding the front of the chunk shown there.
   */
  lemma ReadIsWritten(s: State, cache: seq<VisibleInterval>, have: Blobs, offset: int, n: nat, data: seq<byte>, j: int)
    requires Shown(cache, s.cached) && GoodState(s) && Grew(have, s.blobs)
    requires ReadShows(s.runs, cache, have, offset, n, data) && 0 <= j < |data|
    requires Lookup(s.runs, offset + j).Some?
      || (j < Reach(ReadViews(cache), have, offset, n) && FrontShows(s.cached, offset + j))
    ensures s.Written(offset + j) == Some(data[j])
  {
    if Lookup(s.runs, offset + j) == None {
      ReachMeans(ReadViews(cache), have, offset, n, j);
      ViewShowsStored(cache, s.cached, s.blobs, have, offset + j);
    }
  }

  /** How many bytes a read of n bytes returns: as far as the views or the dirty bytes reach. */
  ghost function ReadCount(runs: seq<Run>, cache: seq<VisibleInterval>, blobs: Blobs, offset: int, n: nat): int {
    var (lo, len) := Extent(runs, offset, offset + n);
    Max(Reach(ReadViews(cache), blobs, offset, n), lo + len - offset)
  }

  /** The views of the cached intervals, as the reader wants them. */
  lemma ReaderViews(vs: seq<VisibleInterval>, chunks: seq<FileChunk>, blobs: Blobs)
    requires Shown(vs, chunks) && DistinctIds(chunks) && AllUploaded(chunks, blobs)
    ensures Contiguous(ReadViews(vs), 0) && forall w :: w in ReadViews(vs) ==> 0 <= w.offset
  {
    ViewsContiguous(vs, 0, MAX_INT32);
    forall w | w in ReadViews(vs) ensures 0 <= w.offset {
      ViewsFetchable(vs, chunks, blobs, w);
    }
  }

  /** What the reader put into a zeroed buffer. */
  lemma ReadAll(vs: seq<VisibleInterval>, blobs: Blobs, offset: int, bytes: seq<byte>, n: nat)
    requires n <= |bytes| && ReadSoFar(ReadViews(vs), blobs, offset, bytes[..n])
    requires n == |bytes| || !Readable(ReadViews(vs), blobs, offset + n)
    requires forall j :: n <= j < |bytes| ==> bytes[j] == 0
    ensures FromChunks(vs, blobs, offset, bytes, n)
  {
    ReachIs(ReadViews(vs), blobs, offset, |bytes|, n);
  }

  lemma NoChunksNoViews(vs: seq<VisibleInterval>, blobs: Blobs, offset: int, n: nat)
    requires Shown(vs, [])
    ensures ReadViews(vs) == [] && Reach(ReadViews(vs), blobs, offset, n) == 0
  {
    ShownIds(vs, []);
    assert forall v :: v in vs ==> v.fileId in Ids(vs);
  }
}
