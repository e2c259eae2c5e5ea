/** File chunks and the rule that gives a file its content: at each position the newest chunk wins. */
module Chunks {
  import opened Common

  type FileId = nat

  datatype FileChunk = FileChunk(fileId: FileId, offset: int, size: int, mtime: int, isManifest: bool) {
    function Stop(): int {
      offset + size
    }

    predicate Covers(p: int) {
      offset <= p < Stop()
    }
  }

  function IdsOf(chunks: seq<FileChunk>): set<FileId> {
    set c | c in chunks :: c.fileId
  }

  /** The chunk with the greatest modification time among those that cover position p. */
  function Newest(chunks: seq<FileChunk>, p: int): (r: Option<FileChunk>)
    ensures r.Some? ==> r.value in chunks && r.value.Covers(p)
    ensures r.Some? ==> forall c :: c in chunks && c.Covers(p) ==> c.mtime <= r.value.mtime
    ensures r == None ==> forall c :: c in chunks ==> !c.Covers(p)
  {
    if chunks == [] then None
    else
      var rest, c := Newest(chunks[..|chunks|-1], p), chunks[|chunks|-1];
      assert chunks == chunks[..|chunks|-1] + [c];
      if c.Covers(p) && (rest == None || rest.value.mtime <= c.mtime) then Some(c) else rest
  }

  ghost predicate DistinctTimes(chunks: seq<FileChunk>) {
    forall i, j :: 0 <= i < j < |chunks| ==> chunks[i].mtime != chunks[j].mtime
  }

  /** With distinct times, any covering chunk that none is newer than is the newest. */
  lemma NewestIs(chunks: seq<FileChunk>, p: int, c: FileChunk)
    requires DistinctTimes(chunks) && c in chunks && c.Covers(p)
    requires forall d :: d in chunks && d.Covers(p) ==> d.mtime <= c.mtime
    ensures Newest(chunks, p) == Some(c)
  {
    var n := Newest(chunks, p).value;
    var i :| 0 <= i < |chunks| && chunks[i] == c;
    var j :| 0 <= j < |chunks| && chunks[j] == n;
    assert n.mtime == c.mtime;
    assert i == j;
  }

  /** The newest chunk depends on the set of chunks only. */
  lemma NewestSameSet(a: seq<FileChunk>, b: seq<FileChunk>, p: int)
    requires DistinctTimes(b) && forall c :: c in a <==> c in b
    ensures Newest(a, p) == Newest(b, p)
  {
    if Newest(a, p).Some? {
      NewestIs(b, p, Newest(a, p).value);
    }
  }

  /** The newest chunk of a list is the newest of any part that holds it. */
  lemma NewestAmong(part: seq<FileChunk>, chunks: seq<FileChunk>, p: int, c: FileChunk)
    requires DistinctTimes(chunks) && (forall d :: d in part ==> d in chunks) && c in part
    requires Newest(chunks, p) == Some(c)
    ensures Newest(part, p) == Some(c)
  {
    NewestIs(chunks, p, Newest(part, p).value);
  }

  /** A chunk of the list is before the cut or behind it, not both. */
  lemma SplitOnce(data: seq<FileChunk>, done: nat, c: FileChunk)
    requires DistinctTimes(data) && done <= |data|
    ensures c in data <==> c in data[..done] || c in data[done..]
    ensures !(c in data[..done] && c in data[done..])
  {
    assert data == data[..done] + data[done..];
    forall i, j | 0 <= i < done && 0 <= j < |data| - done ensures data[..done][i] != data[done..][j] {
      assert data[i].mtime != data[done + j].mtime;
    }
  }

  /** `a` are all older than `b`. */
  ghost predicate Older(a: seq<FileChunk>, b: seq<FileChunk>) {
    forall x, y :: x in a && y in b ==> x.mtime < y.mtime
  }

  lemma {:induction false} NewestConcat(a: seq<FileChunk>, b: seq<FileChunk>, p: int)
    requires Older(a, b)
    ensures Newest(a + b, p) == if Newest(b, p).Some? then Newest(b, p) else Newest(a, p)
  {
    if b == [] {
      assert a + b == a;
    } else {
      var n := |b| - 1;
      assert (a + b)[..|a + b|-1] == a + b[..n];
      assert forall y :: y in b[..n] ==> y in b;
      NewestConcat(a, b[..n], p);
    }
  }

  // ----- bytes -----

  type Blobs = map<FileId, seq<byte>>

  /** The stored byte of a chunk at file position p. */
  function ChunkByte(blobs: Blobs, c: FileChunk, p: int): Option<byte> {
    if c.fileId in blobs && 0 <= p - c.offset < |blobs[c.fileId]| then Some(blobs[c.fileId][p - c.offset]) else None
  }

  /** The file's stored content: the byte of the newest chunk. */
  function Stored(chunks: seq<FileChunk>, blobs: Blobs, p: int): Option<byte> {
    match Newest(chunks, p)
    case None => None
    case Some(c) => ChunkByte(blobs, c, p)
  }

  /** Chunk c was uploaded whole. */
  ghost predicate Uploaded(c: FileChunk, blobs: Blobs) {
    c.fileId in blobs && |blobs[c.fileId]| == c.size > 0
  }

  ghost predicate AllUploaded(chunks: seq<FileChunk>, blobs: Blobs) {
    forall c :: c in chunks ==> Uploaded(c, blobs)
  }

  /** Uploading more blobs does not change what is stored. */
  lemma StoredGrow(chunks: seq<FileChunk>, blobs: Blobs, more: Blobs, p: int)
    requires AllUploaded(chunks, blobs)
    requires forall id :: id in blobs ==> id in more && more[id] == blobs[id]
    ensures Stored(chunks, more, p) == Stored(chunks, blobs, p)
  {}

  lemma StoredConcat(a: seq<FileChunk>, b: seq<FileChunk>, blobs: Blobs, p: int)
    requires Older(a, b) && AllUploaded(b, blobs)
    ensures Stored(a + b, blobs, p) == if Stored(b, blobs, p).Some? then Stored(b, blobs, p) else Stored(a, blobs, p)
  {
    NewestConcat(a, b, p);
  }
}
