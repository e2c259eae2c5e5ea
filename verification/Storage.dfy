/** Where chunks are stored: data as blobs, lists of chunks as manifests. */
module Storage {
  import opened Common
  import opened Chunks

  /** The chunk lists that were saved as manifests, by file id. */
  type Store = map<FileId, seq<FileChunk>>

  /**
   All blobs that were ever written, with the ids of those that are deleted, and the manifests there are.  An upload
   gets a fresh file id and a later time than the ones before; the next `savesLeft` manifests are saved.
   */
  class Volumes {
    var blobs: Blobs
    var deleted: set<FileId>
    var manifests: Store
    var nextId: FileId
    var clock: int
    var savesLeft: nat

    ghost predicate Valid()
      reads this
    {
      && (forall id :: id in blobs ==> id < nextId)
      && (forall id :: id in manifests ==> id < nextId && id !in blobs)
      && deleted <= blobs.Keys
    }

    lemma Apart()
      requires Valid()
      ensures (forall id :: id in manifests ==> id !in blobs) && deleted <= blobs.Keys
    {}

    constructor ()
      ensures Valid() && blobs == map[] && deleted == {} && manifests == map[]
    {
      blobs, deleted, manifests, nextId, clock, savesLeft := map[], {}, map[], 0, 0, 0;
    }

    /** From here on `saves` manifests can be saved. */
    method Restock(saves: nat)
      requires Valid()
      modifies this`savesLeft
      ensures Valid() && savesLeft == saves
    {
      savesLeft := saves;
    }

    method SaveDataAsChunk(data: seq<byte>, offset: int) returns (c: FileChunk)
      requires Valid()
      modifies this`blobs, this`nextId, this`clock
      ensures Valid() && c.fileId !in old(blobs) && blobs == old(blobs)[c.fileId := data]
      ensures c == FileChunk(c.fileId, offset, |data|, clock, false) && clock > old(clock)
    {
      c := FileChunk(nextId, offset, |data|, clock + 1, false);
      blobs, nextId, clock := blobs[nextId := data], nextId + 1, clock + 1;
    }

    /** Saves the list as a manifest, unless the save fails. */
    method SaveManifest(chunks: seq<FileChunk>) returns (c: Option<FileChunk>)
      requires Valid()
      modifies this`manifests, this`nextId, this`clock, this`savesLeft
      ensures Valid() && clock >= old(clock)
      ensures c.Some? <==> old(savesLeft) > 0
      ensures c == None ==> manifests == old(manifests) && savesLeft == 0
      ensures c.Some? ==> c.value.fileId !in old(manifests) && manifests == old(manifests)[c.value.fileId := chunks]
      ensures c.Some? ==> savesLeft == old(savesLeft) - 1
    {
      if savesLeft == 0 {
        return None;
      }
      c := Some(FileChunk(nextId, 0, 0, clock + 1, false));
      manifests, nextId, clock, savesLeft := manifests[nextId := chunks], nextId + 1, clock + 1, savesLeft - 1;
    }

    method DeleteFileChunks(ids: set<FileId>)
      requires Valid()
      modifies this`deleted, this`manifests
      ensures Valid() && deleted == old(deleted) + (ids * blobs.Keys) && manifests == old(manifests) - ids
    {
      deleted, manifests := deleted + (ids * blobs.Keys), manifests - ids;
    }
  }
}
