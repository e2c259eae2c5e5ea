/** The write buffer of an open file, and the uploads that empty it. */
module DirtyPages {
  import opened Common
  import opened Chunks
  import opened Storage
  import opened Runs
  import opened DirtyIntervals

  /** Chunks uploaded under new ids after `since` and up to `now`, in order of their times, and nothing else. */
  ghost predicate UploadedSince(chunks: seq<FileChunk>, was: Blobs, blobs: Blobs, since: int, now: int) {
    && AllUploaded(chunks, blobs) && since <= now && blobs.Keys == was.Keys + IdsOf(chunks)
    && (forall c :: c in chunks ==> since < c.mtime <= now && !c.isManifest && c.fileId !in was)
    && (forall i, j :: 0 <= i < j < |chunks| ==>
          chunks[i].mtime < chunks[j].mtime && chunks[i].fileId != chunks[j].fileId)
  }

  /** No two of the chunks overlap. */
  ghost predicate Disjoint(chunks: seq<FileChunk>) {
    forall i, j :: 0 <= i < j < |chunks| ==>
      chunks[i].Stop() <= chunks[j].offset || chunks[j].Stop() <= chunks[i].offset
  }

  /** No chunk overlaps a run. */
  ghost predicate Beside(chunks: seq<FileChunk>, runs: seq<Run>) {
    forall c, r :: c in chunks && r in runs ==> c.Stop() <= r.start || r.Stop() <= c.offset
  }

  /** A chunk made of one of the runs is disjoint from the chunks before and from the other runs. */
  lemma DisjointMore(chunks: seq<FileChunk>, runs: seq<Run>, k: nat, c: FileChunk)
    requires Disjoint(chunks) && Beside(chunks, runs) && WellFormed(runs) && k < |runs|
    requires c.offset == runs[k].start && c.size == |runs[k].bytes|
    ensures Disjoint(chunks + [c]) && Beside(chunks + [c], RemoveAt(runs, k))
  {
    assert runs[k] in runs;
    var all, rest := chunks + [c], RemoveAt(runs, k);
    forall d, r | d in all && r in rest ensures d.Stop() <= r.start || r.Stop() <= d.offset {
      OtherRun(runs, k, r);
      assert d in chunks || d == c;
    }
    forall i, j | 0 <= i < j < |all| ensures all[i].Stop() <= all[j].offset || all[j].Stop() <= all[i].offset {
      assert all[i] in chunks;
    }
  }

  lemma OtherRun(runs: seq<Run>, k: nat, r: Run)
    requires WellFormed(runs) && k < |runs| && r in RemoveAt(runs, k)
    ensures r in runs && (runs[k].Stop() <= r.start || r.Stop() <= runs[k].start)
  {
    RemoveWellFormed(runs, k);
    var i :| 0 <= i < |RemoveAt(runs, k)| && RemoveAt(runs, k)[i] == r;
    assert Apart(runs[Kept(k, i)], runs[k]);
  }

  /** The content at p: the dirty byte, else the byte stored in the chunks. */
  ghost function Seen(runs: seq<Run>, chunks: seq<FileChunk>, blobs: Blobs, p: int): Option<byte> {
    if Lookup(runs, p).Some? then Lookup(runs, p) else Stored(chunks, blobs, p)
  }

  /** Buffer and new chunks together hold the old buffer with `r` written over it. */
  ghost predicate SeenAfter(was: seq<Run>, r: Run, runs: seq<Run>, chunks: seq<FileChunk>, blobs: Blobs) {
    forall p :: Seen(runs, chunks, blobs, p) == if r.Covers(p) then Some(r.At(p)) else Lookup(was, p)
  }

  lemma UploadStored(chunks: seq<FileChunk>, blobs: Blobs, c: FileChunk, data: seq<byte>, p: int)
    requires AllUploaded(chunks, blobs) && Older(chunks, [c])
    requires c.fileId !in blobs && c.size == |data| > 0
    ensures Stored(chunks + [c], blobs[c.fileId := data], p)
      == if c.Covers(p) then Some(data[p - c.offset]) else Stored(chunks, blobs, p)
  {
    var more := blobs[c.fileId := data];
    StoredConcat(chunks, [c], more, p);
    StoredGrow(chunks, blobs, more, p);
    assert Newest([c], p) == if c.Covers(p) then Some(c) else None;
  }

  /** One more upload behind the others. */
  lemma UploadStep(chunks: seq<FileChunk>, was: Blobs, blobs: Blobs, since: int, now: int, c: FileChunk,
                   data: seq<byte>)
    requires UploadedSince(chunks, was, blobs, since, now) && Grew(was, blobs)
    requires c.fileId !in blobs && c.size == |data| > 0 && c.mtime > now && !c.isManifest
    ensures UploadedSince(chunks + [c], was, blobs[c.fileId := data], since, c.mtime)
    ensures Grew(blobs, blobs[c.fileId := data])
  {
    var all, more := chunks + [c], blobs[c.fileId := data];
    IdsMore(chunks, c);
    assert more.Keys == was.Keys + IdsOf(all);
    hide IdsOf;
    forall x | x in all ensures Uploaded(x, more) && since < x.mtime <= c.mtime && !x.isManifest && x.fileId !in was {
      if x in chunks {
        assert Uploaded(x, blobs);
      }
    }
    forall i, j | 0 <= i < j < |all| ensures all[i].mtime < all[j].mtime && all[i].fileId != all[j].fileId {
      assert all[i] in chunks && Uploaded(all[i], blobs) && (j < |chunks| ==> all[j] == chunks[j]);
    }
  }

  lemma IdsMore(chunks: seq<FileChunk>, c: FileChunk)
    ensures IdsOf(chunks + [c]) == IdsOf(chunks) + {c.fileId}
  {
    assert c in chunks + [c];
  }

  /** Moving a run from the buffer to a newer chunk changes no content. */
  lemma SpillStep(runs: seq<Run>, k: nat, chunks: seq<FileChunk>, blobs: Blobs, c: FileChunk, p: int)
    requires WellFormed(runs) && k < |runs| && AllUploaded(chunks, blobs) && Older(chunks, [c])
    requires c.fileId !in blobs && c.offset == runs[k].start && c.size == |runs[k].bytes|
    ensures Seen(RemoveAt(runs, k), chunks + [c], blobs[c.fileId := runs[k].bytes], p) == Seen(runs, chunks, blobs, p)
  {
    Remove(runs, k);
    UploadStored(chunks, blobs, c, runs[k].bytes, p);
    assert c.Covers(p) <==> runs[k].Covers(p);
  }

  /** Some of the runs that were there are uploaded, each as a chunk, and the others are still in the buffer. */
  ghost predicate Saving(was: seq<Run>, wasBlobs: Blobs, since: int, runs: seq<Run>, chunks: seq<FileChunk>,
                         blobs: Blobs, now: int)
  {
    && |chunks| + |runs| == |was| && Disjoint(chunks) && Beside(chunks, runs)
    && UploadedSince(chunks, wasBlobs, blobs, since, now) && Grew(wasBlobs, blobs)
    && forall p :: Seen(runs, chunks, blobs, p) == Lookup(was, p)
  }

  lemma NothingSaved(runs: seq<Run>, blobs: Blobs, now: int)
    ensures Saving(runs, blobs, now, runs, [], blobs, now)
  {}

  lemma SaveStep(was: seq<Run>, wasBlobs: Blobs, since: int, runs: seq<Run>, chunks: seq<FileChunk>, blobs: Blobs,
                 now: int, k: nat, c: FileChunk)
    requires Saving(was, wasBlobs, since, runs, chunks, blobs, now) && WellFormed(runs) && k < |runs|
    requires c == FileChunk(c.fileId, runs[k].start, |runs[k].bytes|, c.mtime, false)
    requires c.fileId !in blobs && c.mtime > now
    ensures Saving(was, wasBlobs, since, RemoveAt(runs, k), chunks + [c], blobs[c.fileId := runs[k].bytes], c.mtime)
    ensures |RemoveAt(runs, k)| < |runs|
  {
    UploadStep(chunks, wasBlobs, blobs, since, now, c, runs[k].bytes);
    DisjointMore(chunks, runs, k, c);
    forall p ensures Seen(RemoveAt(runs, k), chunks + [c], blobs[c.fileId := runs[k].bytes], p) == Lookup(was, p) {
      SpillStep(runs, k, chunks, blobs, c, p);
    }
  }

  lemma AllSaved(was: seq<Run>, wasBlobs: Blobs, since: int, chunks: seq<FileChunk>, blobs: Blobs, now: int)
    requires Saving(was, wasBlobs, since, [], chunks, blobs, now)
    ensures |chunks| == |was| && Disjoint(chunks) && UploadedSince(chunks, wasBlobs, blobs, since, now)
    ensures Grew(wasBlobs, blobs) && forall p :: Stored(chunks, blobs, p) == Lookup(was, p)
  {
    forall p ensures Stored(chunks, blobs, p) == Lookup(was, p) {
      assert Seen([], chunks, blobs, p) == Lookup(was, p);
    }
  }

  lemma SpilledSeen(was: seq<Run>, r: Run, mid: seq<Run>, runs: seq<Run>, chunks: seq<FileChunk>, blobs: Blobs)
    requires Overlays(was, r, mid) && forall p :: Seen(runs, chunks, blobs, p) == Lookup(mid, p)
    ensures SeenAfter(was, r, runs, chunks, blobs)
  {}

  lemma NothingSpilled(was: seq<Run>, r: Run, runs: seq<Run>, blobs: Blobs, now: int)
    requires Overlays(was, r, runs)
    ensures SeenAfter(was, r, runs, [], blobs) && UploadedSince([], blobs, blobs, now, now) && Grew(blobs, blobs)
  {}

  class ContinuousDirtyPages {
    const intervals: ContinuousIntervals
    const volumes: Volumes
    const chunkSizeLimit: int

    ghost predicate Valid()
      reads intervals, intervals.repr, volumes
    {
      && intervals.Valid() && volumes.Valid()
      && Runs.TotalSize(intervals.runs) <= chunkSizeLimit
      && volumes !in intervals.repr
    }

    /** What Valid() says. */
    lemma Parts()
      requires Valid()
      ensures intervals.Valid() && volumes.Valid() && volumes !in intervals.repr
      ensures Runs.TotalSize(intervals.runs) <= chunkSizeLimit
    {}

    lemma Assemble()
      requires intervals.Valid() && volumes.Valid() && volumes !in intervals.repr
      requires Runs.TotalSize(intervals.runs) <= chunkSizeLimit
      ensures Valid()
    {}

    constructor (volumes: Volumes, chunkSizeLimit: int)
      requires volumes.Valid() && 0 <= chunkSizeLimit
      ensures Valid() && this.volumes == volumes && this.chunkSizeLimit == chunkSizeLimit
      ensures intervals.runs == [] && fresh(intervals) && fresh(intervals.repr)
    {
      this.volumes, this.chunkSizeLimit := volumes, chunkSizeLimit;
      intervals := new ContinuousIntervals();
    }

    /** Uploads the largest list and takes it out of the buffer; None when the buffer is empty. */
    method SaveExistingLargestPageToStorage() returns (chunk: Option<FileChunk>, ghost k: int)
      requires intervals.Valid() && volumes.Valid() && volumes !in intervals.repr
      modifies intervals, volumes`blobs, volumes`nextId, volumes`clock
      ensures intervals.Valid() && volumes.Valid() && intervals.repr == old(intervals.repr)
      ensures chunk == None <==> old(intervals.runs) == []
      ensures chunk == None ==>
        intervals.runs == [] && volumes.blobs == old(volumes.blobs) && volumes.clock == old(volumes.clock)
      ensures chunk.Some? ==> 0 <= k < |old(intervals.runs)| && intervals.runs == RemoveAt(old(intervals.runs), k)
      ensures chunk.Some? ==> forall i :: 0 <= i < |old(intervals.runs)| ==>
        |old(intervals.runs)[i].bytes| <= |old(intervals.runs)[k].bytes|
      ensures chunk.Some? ==>
        var c, r := chunk.value, old(intervals.runs)[k];
        && c.fileId !in old(volumes.blobs) && volumes.blobs == old(volumes.blobs)[c.fileId := r.bytes]
        && c == FileChunk(c.fileId, r.start, |r.bytes|, volumes.clock, false) && volumes.clock > old(volumes.clock)
    {
      var maxList;
      maxList, k := intervals.RemoveLargestIntervalLinkedList();
      if maxList == null {
        return None, k;
      }
      var bytes := maxList.ToReader();
      var c := volumes.SaveDataAsChunk(bytes, maxList.Offset());
      chunk := Some(c);
    }

    /** Uploads every list, largest first, until the buffer is empty. */
    method SaveExistingPagesToStorage() returns (chunks: seq<FileChunk>)
      requires intervals.Valid() && volumes.Valid() && volumes !in intervals.repr
      modifies intervals, volumes`blobs, volumes`nextId, volumes`clock
      ensures intervals.Valid() && volumes.Valid() && intervals.repr == old(intervals.repr)
      ensures intervals.runs == [] && intervals.lists == [] && |chunks| == |old(intervals.runs)| && Disjoint(chunks)
      ensures UploadedSince(chunks, old(volumes.blobs), volumes.blobs, old(volumes.clock), volumes.clock)
      ensures Grew(old(volumes.blobs), volumes.blobs)
      ensures forall p :: Stored(chunks, volumes.blobs, p) == Lookup(old(intervals.runs), p)
    {
      hide *;
      chunks := [];
      intervals.Parts();
      NothingSaved(intervals.runs, volumes.blobs, volumes.clock);
      while true
        invariant intervals.Valid() && volumes.Valid() && intervals.repr == old(intervals.repr)
        invariant Saving(old(intervals.runs), old(volumes.blobs), old(volumes.clock), intervals.runs, chunks,
                         volumes.blobs, volumes.clock)
        decreases |intervals.runs|
      {
        ghost var runs, blobs, now := intervals.runs, volumes.blobs, volumes.clock;
        intervals.Parts();
        var chunk;
        ghost var k;
        chunk, k := SaveExistingLargestPageToStorage();
        if chunk == None {
          break;
        }
        SaveStep(old(intervals.runs), old(volumes.blobs), old(volumes.clock), runs, chunks, blobs, now, k, chunk.value);
        chunks := chunks + [chunk.value];
      }
      AllSaved(old(intervals.runs), old(volumes.blobs), old(volumes.clock), chunks, volumes.blobs, volumes.clock);
      intervals.Parts();
    }

    /** A write too large for the buffer: the buffer is emptied, then the data goes up as one chunk. */
    method FlushAndSave(offset: int, data: seq<byte>) returns (chunks: seq<FileChunk>)
      requires intervals.Valid() && volumes.Valid() && volumes !in intervals.repr && |data| > 0
      modifies intervals, volumes`blobs, volumes`nextId, volumes`clock
      ensures intervals.Valid() && volumes.Valid() && intervals.repr == old(intervals.repr)
      ensures intervals.runs == [] && |chunks| == |old(intervals.runs)| + 1
      ensures UploadedSince(chunks, old(volumes.blobs), volumes.blobs, old(volumes.clock), volumes.clock)
      ensures Grew(old(volumes.blobs), volumes.blobs)
      ensures SeenAfter(old(intervals.runs), Run(offset, data), intervals.runs, chunks, volumes.blobs)
    {
      hide IdsOf;
      chunks := SaveExistingPagesToStorage();
      ghost var blobs, now := volumes.blobs, volumes.clock;
      var chunk := volumes.SaveDataAsChunk(data, offset);
      UploadStep(chunks, old(volumes.blobs), blobs, old(volumes.clock), now, chunk, data);
      forall p ensures Stored(chunks + [chunk], volumes.blobs, p)
        == if chunk.Covers(p) then Some(data[p - offset]) else Lookup(old(intervals.runs), p)
      {
        UploadStored(chunks, blobs, chunk, data, p);
      }
      chunks := chunks + [chunk];
    }

    /** Writes `data` at `offset` into the buffer, uploading what does not fit. */
    method AddPage(offset: int, data: seq<byte>) returns (chunks: seq<FileChunk>)
      requires Valid() && |data| > 0
      modifies intervals, intervals.repr, volumes`blobs, volumes`nextId, volumes`clock
      ensures Valid() && fresh(intervals.repr - old(intervals.repr))
      ensures 0 < |chunks| + |intervals.runs| <= |old(intervals.runs)| + 1
      ensures volumes.manifests == old(volumes.manifests) && volumes.savesLeft == old(volumes.savesLeft)
      ensures UploadedSince(chunks, old(volumes.blobs), volumes.blobs, old(volumes.clock), volumes.clock)
      ensures Grew(old(volumes.blobs), volumes.blobs)
      ensures SeenAfter(old(intervals.runs), Run(offset, data), intervals.runs, chunks, volumes.blobs)
    {
      if |data| > chunkSizeLimit {
        chunks := FlushAndSave(offset, data);
      } else {
        chunks := AddToBuffer(offset, data);
      }
    }

    /** A write that fits the buffer; what is then too much is spilled. */
    method AddToBuffer(offset: int, data: seq<byte>) returns (chunks: seq<FileChunk>)
      requires intervals.Valid() && volumes.Valid() && volumes !in intervals.repr
      requires Runs.TotalSize(intervals.runs) <= chunkSizeLimit && 0 < |data| <= chunkSizeLimit
      modifies intervals, intervals.repr, volumes`blobs, volumes`nextId, volumes`clock
      ensures intervals.Valid() && volumes.Valid() && volumes !in intervals.repr
      ensures Runs.TotalSize(intervals.runs) <= chunkSizeLimit && fresh(intervals.repr - old(intervals.repr))
      ensures 0 < |chunks| + |intervals.runs| <= |old(intervals.runs)| + 1
      ensures UploadedSince(chunks, old(volumes.blobs), volumes.blobs, old(volumes.clock), volumes.clock)
      ensures Grew(old(volumes.blobs), volumes.blobs)
      ensures SeenAfter(old(intervals.runs), Run(offset, data), intervals.runs, chunks, volumes.blobs)
    {
      hide *;
      ghost var runs0, r, blobs, now := intervals.runs, Run(offset, data), volumes.blobs, volumes.clock;
      intervals.Parts();
      intervals.AddInterval(data, offset);
      intervals.Parts();
      ghost var runs := intervals.runs;
      OverlaySize(runs0, r, runs);
      OverlayCount(runs0, r, runs);
      ghost var at := OverlayLargest(runs0, r, runs);
      var total := intervals.TotalSize();
      if total > chunkSizeLimit {
        var chunk := Spill(at);
        chunks := [chunk];
        SpilledSeen(runs0, r, runs, intervals.runs, chunks, volumes.blobs);
      } else {
        chunks := [];
        NothingSpilled(runs0, r, runs, blobs, now);
      }
    }

    /** Moves the largest list into a chunk; no content changes, and the buffer shrinks at least by run `at`. */
    method Spill(ghost at: nat) returns (chunk: FileChunk)
      requires intervals.Valid() && volumes.Valid() && volumes !in intervals.repr && at < |intervals.runs|
      modifies intervals, volumes`blobs, volumes`nextId, volumes`clock
      ensures intervals.Valid() && volumes.Valid() && intervals.repr == old(intervals.repr)
      ensures |intervals.runs| == |old(intervals.runs)| - 1
      ensures Runs.TotalSize(intervals.runs) + |old(intervals.runs)[at].bytes| <= Runs.TotalSize(old(intervals.runs))
      ensures UploadedSince([chunk], old(volumes.blobs), volumes.blobs, old(volumes.clock), volumes.clock)
      ensures Grew(old(volumes.blobs), volumes.blobs)
      ensures forall p :: Seen(intervals.runs, [chunk], volumes.blobs, p) == Lookup(old(intervals.runs), p)
    {
      ghost var runs, blobs, now := intervals.runs, volumes.blobs, volumes.clock;
      var largest;
      ghost var k;
      largest, k := SaveExistingLargestPageToStorage();
      chunk := largest.value;
      RemoveSize(runs, k);
      UploadStep([], blobs, blobs, now, now, chunk, runs[k].bytes);
      assert [] + [chunk] == [chunk];
      forall p ensures Seen(intervals.runs, [chunk], volumes.blobs, p) == Lookup(runs, p) {
        SpillStep(runs, k, [], blobs, chunk, p);
      }
    }

    method FlushToStorage() returns (chunks: seq<FileChunk>)
      requires Valid() && 0 <= chunkSizeLimit
      modifies intervals, volumes`blobs, volumes`nextId, volumes`clock
      ensures Valid() && intervals.repr == old(intervals.repr) && intervals.runs == [] && intervals.lists == []
      ensures |chunks| == |old(intervals.runs)| && Disjoint(chunks)
      ensures UploadedSince(chunks, old(volumes.blobs), volumes.blobs, old(volumes.clock), volumes.clock)
      ensures Grew(old(volumes.blobs), volumes.blobs)
      ensures forall p :: Stored(chunks, volumes.blobs, p) == Lookup(old(intervals.runs), p)
    {
      chunks := SaveExistingPagesToStorage();
    }
  }
}
