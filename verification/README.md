# SeaweedFS: files, names and ids

A Dafny model of the parts of SeaweedFS where state is hard to keep right:

- **A mounted file.** Writes go into a buffer of linked lists, the buffer spills into uploaded chunks, the chunks of a
  file overlap and the newest shows, reads put the pieces together again. Compaction, manifests and the clean-up of an
  entry's chunks rearrange the chunk list.
- **The filer's name space.** A store of entries by path with a directory cache and an event log; entries are created,
  updated, listed page by page, deleted with all below them and renamed; followers replay the log.
- **The mount's node cache.** A trie of nodes with parent pointers that is changed in place.
- **Ids and locks.** File ids handed out by any number of masters over one shared register, and the shell's admin lock.
- **Signed uploads.** The reader of S3 streaming uploads, which checks a chain of chunk signatures.

The model takes the form of the code. What the code changes in place is a class (or an array) here, with the same loops
and branches; each method is tied to a value: the bytes at each position, the owner of each position, the entry at each
path, the object at each path. The lemmas are about those values. Classes carry a `Valid()` invariant.

## Files

| file | what it holds |
|---|---|
| `Common`, `Paths`, `Names` | options and small functions; paths as sequences of components; the order of names |
| `Runs`, `DirtyIntervals`, `DirtyPages` | the write buffer as a value, as linked lists in the heap, and its spilling into chunks |
| `Chunks`, `Visibles`, `Visibility`, `Addresses` | chunks, visible intervals and who owns a position |
| `EmptyChunks`, `SharedBuffers` | merging when chunks are empty, and when the two interval buffers share an array |
| `Views`, `ReaderAt` | from visible intervals to views to the bytes of a read |
| `Storage`, `Manifests`, `Cleanup` | blobs and manifests, manifest chunks, and the clean-up of chunk lists |
| `FileStates`, `FileRuns`, `LosingRuns` | an open file as a value: what each operation does to it, whole runs, and runs that lose data |
| `OpenEntry`, `FileReads` | the chunk lists of an open file and of the filer; what a read returns |
| `MountFile`, `MountRuns` | the file handle with its writes, flushes and reads, and whole runs of it |
| `Namespace`, `Listing`, `Filer` | the store, its events and their replay; listings; the filer |
| `Renames`, `FilerServer`, `FilerRuns`, `Follower` | renames; the service calls; whole runs; followers |
| `FsCache` | the trie of nodes |
| `Sequencer`, `AdminLock` | file ids over etcd, and the admin lock |
| `ChunkWire`, `ChunkedReader` | chunk headers, and the reader of signed uploads |

## Main results

1. An open file goes through its operations as a trace of states (`MountRuns.RunAll`), although bytes move between
   linked lists, spilled chunks, manifests, the entry's list and the filer's. Over every run and at every position the
   bytes reads are served from are the ones written last exactly when every flush that deletes the chunk shown there is
   followed by a write there, and nothing otherwise (`FileRuns.RunServed`); the entry still shows that chunk exactly when
   every flush that drops it is followed by a write (`FileRuns.RunWhole`). For one flush both conditions are told from
   the state before it (`FileStates.FlushReads`, `FileStates.FlushContent`). Nothing is lost when the entry starts
   without manifests and its chunks, the dirty lists and the writes of the run are fewer than one batch (1000) of chunks
   for a manifest (`FileRuns.RunKeepsAll`); as many as a batch can lose all but the last write
   (`LosingRuns.StoredIsLost`). A read returns the bytes wherever it reaches (`MountRuns.RunThenRead`). The buffer never
   holds more than its limit after a write, though only one list is spilled
   (`DirtyPages.ContinuousDirtyPages.AddPage`). All this is for intervals merged in two separate buffers, as in 2.
2. Merging chunks oldest first gives sorted disjoint intervals whose owner at every position is the newest chunk there
   (`Visibility.VisibleOwner`), and with empty chunks among them exactly when each merge meets a condition on the
   intervals before it (`EmptyChunks.MergeAllExact`). Merging in newer chunks equals computing anew
   (`Visibility.IncrementalIsRecomputed`), and compaction keeps every owner (`Visibility.CompactKeepsOwners`). This is
   for two separate interval buffers. With the slices as the code has them the intervals are the same exactly as long
   as no chunk splits an interval with others behind it while the slices share an array
   (`SharedBuffers.SlicesExact`), from the start or from cached intervals, and then compaction keeps the same chunks
   (`SharedBuffers.SlicesCompact`).
3. In every run of creates, updates, deletes and renames each entry lives in a stored directory, no entry changes
   between file and directory, cached directories are stored, and a follower that replays the log has the same entries
   (`FilerRuns.RunAll`, `Follower.Follower.CatchUp`).
4. A rename moves exactly the subtree, whatever the number of pages (`FilerServer.FilerServer.MoveEntry`,
   `Renames.RenameMoves`). A recursive delete removes exactly the subtree, logs exactly
   its paths and collects exactly the chunks of its files (`Filer.Filer.DeleteEntryMetaAndData`).
5. Listings return exactly the first live names after the cursor while they delete expired ones
   (`Filer.Filer.ListDirectoryEntries`, `FilerServer.FilerServer.ListEntries`).
6. Moving a node of the trie keeps it a tree and moves exactly the lookups under it, also onto one of its own
   ancestors; it panics exactly when the new path is the root, or a directory or file would go below itself or under
   no directory, and what is left then is stated too (`FsCache.FsCache.Move`, `FsCache.MovePanics`).
7. No two ids handed out by any masters in any interleaving overlap (`Sequencer.NoIdTwice`).
8. Any sequence of reads of a signed upload delivers its data in order, and the end is reported only when every
   signature of the chain matched (`ChunkedReader.ReadSeries`, `ChunkedReader.S3ChunkedReader.Read`).

## Where the code does not do what one would expect

Each of these is stated as a lemma or a postcondition with the exact condition.

- A visible interval that lost its front forgets how far into its chunk it starts, so the view reads from the wrong
  place. The address is right exactly where the newest chunk still shows its first byte
  (`Addresses.AddressRight`, `Addresses.FrontOverwritten`).
- The two interval buffers come to share an array whenever a merge appends in place. However arrays grow, a run of
  merges is right exactly as long as no chunk splits an interval with others behind it while they share one
  (`SharedBuffers.SlicesExact`). Four pages written in order and one write into the second lose the third and fourth,
  and a compaction counts their chunks as garbage (`SharedBuffers.SharedBufferReached`). The cached intervals of an open
  file lose them when one flush brings the fourth page and that write (`SharedBuffers.SharedCacheReached`).
- An empty chunk inside an interval leaves an empty interval behind. A later merge is right exactly when its fast path
  is taken behind all intervals, or otherwise no empty interval lies between the new chunk and the rest of an interval
  it cuts (`EmptyChunks.MergeExact`). Else the new chunk does not show (`EmptyChunks.EmptyChunkHidesLater`) or the
  intervals are out of order (`EmptyChunks.EmptyChunkBreaksOrder`).
- Merging new chunks into a dropped interval cache loses the old chunks exactly where the new ones do not cover them
  (`Visibility.EmptyCacheOwner`).
- A flush bundles every thousand chunks into a manifest, and the compaction of the next flush drops manifests. What
  shows only through a manifest is lost from the entry (`FileStates.FlushContent`, `Cleanup.FlushKeepsContent`,
  `LosingRuns.BundledIsLost`). Reads of the handle that did it are still served from its cached intervals.
- The filer deletes what its old list names and the list it is sent does not, without looking into manifests. So a flush
  deletes a chunk that shows exactly when an earlier flush stored it and this one bundles it, the saves permitting; it is
  then lost for the entry and for reads (`FileStates.StoreDeletes`, `FileStates.FlushReads`, `LosingRuns.StoredIsLost`).
  Appending to an entry deletes the data chunks it bundles in the same way, or the manifests if a save failed
  (`Cleanup.AppendToEntry`, `Cleanup.AppendDeletes`).
- A read that comes to a chunk whose blob is gone ends there without an error, and later bytes read as zero or not at
  all (`FileReads.ReadReaches`, `ReaderAt.ChunkReadAt.ReadAt`). A reader that is kept panics when it is then asked for
  bytes inside that view (`ReaderAt.ChunkReadAt.DoReadAt`).
- A manifest is saved for every full batch exactly when there are enough successful saves. When one fails, all manifests
  that were there are dropped, and the chunk at a position is lost exactly when it is not listed directly
  (`Manifests.DoMaybeManifestize`, `Manifests.DataOfKeepsNewest`, `Manifests.FailureLosesManifest`). Appending to an
  entry stores such a list in spite of the error (`Cleanup.AppendToEntry`), the clean-up returns the error instead.
- Reads never reach bytes behind a hole or past position 2^31 - 2 (`FileReads.ReadEndIs`).
- Moving a directory or file below itself, or under a path that is not cached as a directory, panics after both paths
  were taken out of the cache (`FsCache.FsCache.Move`, `FsCache.MovePanics`).
- Listing a directory deletes expired entries without an event. Followers stay right exactly when no deleted entry is
  logged, and the name space stays whole exactly when no deleted directory has entries or is cached
  (`Filer.Filer.ListDirectoryEntries`).
- An update that is refused because it would change a file into a directory or back still sends its event. Followers
  go wrong exactly then (`FilerServer.FilerServer.UpdateEntry`, `Follower.RefusedUpdateMisleads`).
- `SetMax` with a value that is not above the local maximum does nothing. All later ids of that master still reach the
  value exactly when its next id already does or its block is too short for the smallest request
  (`Sequencer.SetMaxIgnored`, `Sequencer.SetMaxIgnoredExact`).

## Model

| member | source | states |
|---|---|---|
| `Runs.Append` | weed/filesys/dirty_page_interval.go:145-150 | a run that touches no other can be added; exactly its positions change |
| `Runs.Extend` | weed/filesys/dirty_page_interval.go:128-144 | a run may grow by an adjacent one; exactly the new positions change, and runs stay disjoint and not touching |
| `Runs.Remove` | weed/filesys/dirty_page_interval.go:174-187 | taking out a run empties exactly its positions |
| `Runs.CutStep` | weed/filesys/dirty_page_interval.go:95-117 | cutting the runs one after the other leaves the place of the new interval free and every other byte where it was |
| `Runs.CutLookup` | weed/filesys/dirty_page_interval.go:95-117 | after the cut a lookup finds nothing in the new interval and the old byte elsewhere |
| `Runs.JoinBefore` | weed/filesys/dirty_page_interval.go:128-134 | joining to the run before lays the new bytes over the buffer and keeps runs apart |
| `Runs.JoinAfter` | weed/filesys/dirty_page_interval.go:141-144 | joining to the run after does the same |
| `Runs.JoinBoth` | weed/filesys/dirty_page_interval.go:128-140 | joining two runs through the new one does the same; the two are different runs |
| `Runs.TotalSizeCountsPositions` | weed/filesys/dirty_page_interval.go:59-64 | the total size is the number of dirty positions |
| `Runs.OverlaySize` | weed/filesys/dirty_page.go:40-45 | a write adds at most its length to the total size |
| `Runs.OverlayCount` | weed/filesys/dirty_page_interval.go:90-153 | a write adds at most one run, however many it cuts or joins |
| `Runs.OverlayLargest` | weed/filesys/dirty_page.go:46-55 | after a write some run holds all of it, so the largest run is at least as long as the write |
| `Runs.RemoveSize` | weed/filesys/dirty_page.go:46-55 | taking out a run lowers the total size by its length |
| `DirtyIntervals.IntervalLinkedList.AddNodeToTail` | weed/filesys/dirty_page_interval.go:31-35 | the list then holds its bytes followed by the node's, still a chain of adjacent nodes ending in nil |
| `DirtyIntervals.IntervalLinkedList.AddNodeToHead` | weed/filesys/dirty_page_interval.go:36-40 | the same at the front |
| `DirtyIntervals.IntervalLinkedList.Connect` | weed/filesys/dirty_page_interval.go:136-140 | two adjacent lists become one that holds the bytes of both |
| `DirtyIntervals.IntervalLinkedList.ReadData` | weed/filesys/dirty_page_interval.go:42-57 | copies exactly the asked part of the list into its place in the buffer and touches no other byte |
| `DirtyIntervals.IntervalLinkedList.ToReader` | weed/filesys/dirty_page_interval.go:211-220 | the bytes of the nodes in order are the bytes of the list |
| `DirtyIntervals.SubList` | weed/filesys/dirty_page_interval.go:66-88 | a new list of new nodes holding exactly the asked part; the old list is untouched |
| `DirtyIntervals.CutList` | weed/filesys/dirty_page_interval.go:96-114 | what is left of a list is its parts before and after the new interval |
| `DirtyIntervals.ContinuousIntervals.CutLists` | weed/filesys/dirty_page_interval.go:94-117 | what is left of all lists is the old content outside the new interval |
| `DirtyIntervals.ContinuousIntervals.JoinInterval` | weed/filesys/dirty_page_interval.go:118-150 | joins the new node to the neighbours it touches; lists stay well formed, disjoint and not touching |
| `DirtyIntervals.ContinuousIntervals.AddInterval` | weed/filesys/dirty_page_interval.go:90-153 | a write over the buffer: the new bytes at its positions, the old bytes elsewhere; every list a nil-terminated chain of adjacent non-empty nodes |
| `DirtyIntervals.ContinuousIntervals.TotalSize` | weed/filesys/dirty_page_interval.go:59-64 | the sum of the sizes of the runs |
| `DirtyIntervals.ContinuousIntervals.RemoveLargestIntervalLinkedList` | weed/filesys/dirty_page_interval.go:155-172 | takes out a list that no other exceeds; nil exactly when there is none; the others stay |
| `DirtyIntervals.ContinuousIntervals.RemoveList` | weed/filesys/dirty_page_interval.go:174-187 | takes out the list by its offset and no other |
| `DirtyIntervals.ContinuousIntervals.ReadData` | weed/filesys/dirty_page_interval.go:189-209 | writes the dirty bytes over the window and no other byte; reports the extent they reach |
| `DirtyIntervals.ExtentHolds` | weed/filesys/dirty_page_interval.go:189-209 | the reported extent covers every dirty byte of the window and stays inside it, up to the 64-bit limit |
| `DirtyPages.UploadStored` | weed/filesys/dirty_page.go:138-150 | an uploaded chunk newer than all others shows its data and hides nothing else |
| `DirtyPages.SpillStep` | weed/filesys/dirty_page.go:117-136 | moving a run from the buffer into a chunk changes no content |
| `DirtyPages.ContinuousDirtyPages.SaveExistingLargestPageToStorage` | weed/filesys/dirty_page.go:117-136 | uploads the largest list under a new id and takes it out of the buffer |
| `DirtyPages.ContinuousDirtyPages.SaveExistingPagesToStorage` | weed/filesys/dirty_page.go:96-115 | uploads every list, ends with none, and the chunks store what the buffer held |
| `DirtyPages.ContinuousDirtyPages.FlushAndSave` | weed/filesys/dirty_page.go:60-86 | a write larger than the limit: the buffer is flushed first, then the write becomes the newest chunk |
| `DirtyPages.ContinuousDirtyPages.AddPage` | weed/filesys/dirty_page.go:33-58 | buffer and new chunks hold the write over what was there, the buffer is again within its limit after at most one spill, and lists and new chunks together are at most one more |
| `DirtyPages.ContinuousDirtyPages.FlushToStorage` | weed/filesys/dirty_page.go:88-94 | nothing stays dirty and the chunks store exactly the dirty bytes |
| `Chunks.NewestIs` | weed/filer2/filechunks.go:215-217 | the newest chunk at a position is the covering one with the greatest time |
| `Chunks.NewestConcat` | weed/filesys/file.go:233-252 | with newer chunks behind older ones the newer show where they cover |
| `Visibles.SweepVisibles` | weed/filer2/filechunks.go:180-191 | the loop computes the sweep |
| `Visibles.ShiftIntoPlace` | weed/filer2/filechunks.go:192-204 | the shifting loop inserts the new interval before those that start after it |
| `Visibles.MergeIntoVisibles` | weed/filer2/filechunks.go:166-207 | the method computes the merge, with its two fast paths |
| `Visibles.SweepFacts` | weed/filer2/filechunks.go:180-191 | the sweep keeps intervals sorted and disjoint, outside the new chunk, and each part of an old interval |
| `Visibles.SweepShows` | weed/filer2/filechunks.go:180-191 | the sweep still shows every old position the new chunk does not cover |
| `Visibles.InsertFacts` | weed/filer2/filechunks.go:192-204 | the insertion keeps intervals sorted and disjoint |
| `Visibles.MergeOwner` | weed/filer2/filechunks.go:166-207 | after a merge the owner is the new chunk where it covers and the old owner elsewhere; intervals stay sorted and disjoint |
| `EmptyChunks.MergeExact` | weed/filer2/filechunks.go:166-207 | for intervals with empty ones among them: the merge lays the chunk on top and keeps the order exactly when the fast path is taken behind all non-empty intervals, or otherwise no empty interval traps the new one |
| `EmptyChunks.MergeEmpty` | weed/filer2/filechunks.go:166-207 | merging an empty chunk changes nothing that shows and keeps the order |
| `EmptyChunks.MergeAllExact` | weed/filer2/filechunks.go:219-226 | a run of merges shows the newest chunk after every step exactly when each step meets that condition |
| `EmptyChunks.VisibleExact` | weed/filer2/filechunks.go:211-232 | the same for a whole chunk list, empty chunks allowed |
| `EmptyChunks.PositiveMayMerge` | weed/filer2/filechunks.go:211-232 | without empty chunks the condition always holds |
| `EmptyChunks.EmptyChunkHidesLater` | weed/filer2/filechunks.go:174-177 | an empty chunk inside an interval makes the next merge append without cutting: two intervals then cover one position |
| `EmptyChunks.EmptyChunkBreaksOrder` | weed/filer2/filechunks.go:196-203 | an empty interval stops the shift of the new one, which ends up behind the rest of the interval it cut |
| `Visibility.SortIncreasing` | weed/filer2/filechunks.go:215-217 | sorting chunks with distinct times orders them strictly |
| `Visibility.SortUnique` | weed/filer2/filechunks.go:215-217 | the order by distinct times is unique, so the unstable sort gives the same list |
| `Visibility.NonOverlappingVisibleIntervals` | weed/filer2/filechunks.go:211-232 | the loop over the sorted chunks computes their visible intervals |
| `Visibility.MergeAllOwner` | weed/filer2/filechunks.go:219-226 | merging chunks oldest first gives each position to the newest covering chunk, else to its old owner |
| `Visibility.VisibleOwner` | weed/filer2/filechunks.go:211-232 | sorted disjoint intervals; the owner of each position is the newest chunk covering it, and there is none exactly where no chunk covers |
| `Visibility.IncrementalIsRecomputed` | weed/filesys/file.go:233-252 | merging newer chunks into the cached intervals equals computing them from all chunks |
| `Visibility.EmptyCacheOwner` | weed/filesys/file.go:233-252 | after the cache was dropped (on release, and when the file is truncated), merging only the new chunks is right at a position exactly when a new chunk covers it or no old one does |
| `Visibility.CompactFileChunks` | weed/filer2/filechunks.go:49-66 | keeps the chunks that own a position and returns the others as garbage |
| `Visibility.CompactPartition` | weed/filer2/filechunks.go:49-66 | kept and garbage together are the input, as bags |
| `Visibility.CompactInOrder` | weed/filer2/filechunks.go:49-66 | both keep the order of the input |
| `Visibility.IdsOwn` | weed/filer2/filechunks.go:52-57 | the ids among the visible intervals are exactly those that own some position |
| `Visibility.CompactKeepsNewest` | weed/filer2/filechunks.go:49-66 | the newest chunk at each position is kept, and no garbage chunk is newest anywhere |
| `Visibility.CompactKeepsOwners` | weed/filer2/filechunks.go:49-66 | the visible intervals of the kept chunks have the same owner everywhere |
| `SharedBuffers.AppendPieces` | weed/filer2/filechunks.go:180-191 | the three conditional appends, each in place while there is room and in a new array otherwise |
| `SharedBuffers.SweepSlices` | weed/filer2/filechunks.go:180-191 | the loop on slices: the sweep, or with one array for both what a sweep leaves that reads back its own cells |
| `SharedBuffers.MergeSlices` | weed/filer2/filechunks.go:166-207 | the whole merge on slices: the intervals, the array they end up in and its capacity |
| `SharedBuffers.MergeAllSlices` | weed/filer2/filechunks.go:211-232 | the loop with the swap of the two slices computes the run of the buffers, which says when they share an array |
| `SharedBuffers.AddChunksSlices` | weed/filesys/file.go:233-252 | the same loop on the cached intervals of an open file, in an array with some room |
| `SharedBuffers.CompactSlices` | weed/filer2/filechunks.go:49-66 | compaction by the intervals that the slices give |
| `SharedBuffers.MergeIntoExact` | weed/filer2/filechunks.go:166-207 | a merge on one array is right exactly when the chunk splits no interval that has others behind it |
| `SharedBuffers.SharedMergeLoses` | weed/filer2/filechunks.go:180-204 | when it is wrong no position behind the split interval is covered any more |
| `SharedBuffers.SlicesExact` | weed/filer2/filechunks.go:211-232 | however arrays grow and whatever ordered intervals the run starts from: the intervals are right after every chunk exactly when no chunk splits inside a shared array |
| `SharedBuffers.SlicesCompact` | weed/filer2/filechunks.go:49-66 | while no chunk splits inside a shared array, compaction by the slices keeps what it keeps with separate buffers, and so the newest chunk and the owner of every position |
| `SharedBuffers.SharedMergeForgets` | weed/filer2/filechunks.go:180-204 | when it is wrong no chunk that owned positions only behind the split interval is named any more |
| `SharedBuffers.SharedBufferReached` | weed/filer2/filechunks.go:211-232 | four pages in order make the buffers share an array of four cells, a fifth write into the second loses the third and fourth, and both become garbage |
| `SharedBuffers.SharedCacheReached` | weed/filesys/file.go:239-245 | the same for the cached intervals of three pages, when the fourth page and the write into the second are added together |
| `SharedBuffers.SweepKeepsLast` | weed/filer2/filechunks.go:219-226 | what the shared sweep loses: the proper one keeps the last interval |
| `Addresses.AddressRight` | weed/filer2/filechunks.go:133-143 | the place a view reads from is right exactly where the newest chunk shows all the way from its first byte |
| `Addresses.FrontOverwritten` | weed/filer2/filechunks.go:182-188 | two chunks for which the address is wrong |
| `Addresses.VisibleOfShown` | weed/filer2/filechunks.go:211-232 | computed intervals never touch another interval of the same chunk |
| `Addresses.MergeAllShown` | weed/filesys/file.go:233-252 | that stays so when newer chunks are merged in |
| `Views.ViewStopSaturates` | weed/filer2/filechunks.go:123-129 | offset plus size wraps in 64 bits and is then replaced by the largest value: the end saturates |
| `Views.ViewFromVisibleIntervals` | weed/filer2/filechunks.go:121-149 | the loop computes the views of a range |
| `Views.ViewsContiguous` | weed/filer2/filechunks.go:131-145 | the views follow each other from the offset without a gap |
| `Views.ViewsMaximal` | weed/filer2/filechunks.go:131-145 | they end at the end of the range or where nothing is visible |
| `Views.ViewsCoverPrefix` | weed/filer2/filechunks.go:121-149 | they cover exactly the longest visible prefix of the range, each position at the address of its interval |
| `ReaderAt.ChunkReadAt.FetchChunkData` | weed/filer2/reader_at.go:113-141 | the bytes of a view, whether the chunk was cached or not; it fails exactly when the blob is gone or too short |
| `ReaderAt.ChunkReadAt.DoReadAt` | weed/filer2/reader_at.go:83-111 | one piece: the bytes the views show, from one view, nothing exactly when no view covers the offset or its blob cannot be fetched; nothing else in the buffer changes; it panics exactly when an earlier fetch of that view failed and the offset is not its start |
| `ReaderAt.ChunkReadAt.ReadAt` | weed/filer2/reader_at.go:67-81 | the bytes the views show from the offset up to the first position that cannot be read or until the buffer is full; end of file exactly when fewer than asked; when it panics |
| `Manifests.ResolveChunkManifest` | weed/filer2/filechunk_manifest.go:29-57 | terminates on well-founded nesting and gives the data chunks and manifests; on failure the input itself |
| `Manifests.ResolveConcat` | weed/filer2/filechunk_manifest.go:29-57 | resolving a concatenation resolves its parts |
| `Manifests.ResolveGrow` | weed/filer2/filechunk_manifest.go:29-57 | saving more manifests does not change what a list resolves to |
| `Manifests.SplitResolve` | weed/filer2/filechunk_manifest.go:84-91 | splitting a list into manifests and data keeps the bag of data chunks |
| `Manifests.MergeIntoManifest` | weed/filer2/filechunk_manifest.go:109-140 | saves the batch exactly when a save is left; the manifest starts at the least offset of a chunk and reaches to the greatest end |
| `Manifests.DoMaybeManifestize` | weed/filer2/filechunk_manifest.go:82-107 | succeeds exactly when there are as many saves as full batches; then manifests, new bundles and the rest resolve to the same bag of data chunks, in the same order if there were no manifests, with the same total size; on failure only the data chunks are left |
| `Manifests.DataOfKeepsNewest` | weed/filer2/filechunk_manifest.go:93-98 | the list left by a failure shows the same chunk at a position exactly when that chunk is listed directly |
| `Manifests.FailureLosesManifest` | weed/filer2/filechunk_manifest.go:93-98 | for every batch size a list of a manifest and one batch that loses its first byte |
| `Manifests.ResolveShrink` | weed/filer2/filechunk_manifest.go:29-57 | deleting manifests that a list does not meet changes nothing it resolves to |
| `Manifests.ManifestizeResolves` | weed/filer2/filechunk_manifest.go:82-107 | manifests, bundles and the rest resolve to what the input resolved to |
| `Manifests.ManifestizeKeepsOrder` | weed/filer2/filechunk_manifest.go:93-106 | without manifests in the input the order is kept too |
| `Manifests.ManifestizeSize` | weed/filer2/filechunks.go:13-21 | the file size computed from the chunks stays |
| `Cleanup.DoMinusChunks` | weed/filer2/filechunks.go:84-97 | the chunks whose id the other list does not have |
| `Cleanup.MinusChunks` | weed/filer2/filechunks.go:68-82 | the data chunks and manifests, resolved, that the other list does not have; fails exactly when one does not resolve |
| `Cleanup.CleanupChunks` | weed/server/filer_grpc_server.go:243-272 | succeeds exactly when every full batch can be saved; then the new list resolves to the chunks that are to be kept, else only its data chunks are left; the garbage is what is to be deleted |
| `Cleanup.CleanupKeepsContent` | weed/server/filer_grpc_server.go:243-272 | after the clean-up the newest chunk at every position is the same |
| `Cleanup.GarbageIsUnused` | weed/server/filer_grpc_server.go:243-272 | no kept data chunk and no kept manifest is deleted as garbage |
| `Cleanup.NothingLeaks` | weed/server/filer_grpc_server.go:243-272 | every data chunk and every manifest of the old and the new entry is kept or garbage |
| `Cleanup.DeleteChunksIfNotNew` | weed/filer2/filer_deletion.go:83-104 | deletes exactly the ids the old list names and the new one does not, without looking into manifests |
| `Cleanup.CreateEntry` | weed/server/filer_grpc_server.go:153-184 | the filer's call that stores a list: it fails exactly when a full batch cannot be saved and then deletes nothing; else the stored list stands for the chunks that are to be kept, and the ids the old list names and the new one does not are deleted with the covered chunks |
| `Cleanup.AppendToEntry` | weed/server/filer_grpc_server.go:274-319 | the list that is stored, also after an error: everything with the new chunks behind the end, or only the data chunks; which one is decided exactly; the ids the entry named and the new list does not are deleted |
| `Cleanup.AppendDeletes` | weed/filer2/filer.go:205-214 | which chunks of the entry an append deletes: exactly the data chunks in the full batches, or the manifests when a save failed |
| `Cleanup.ExtendedResolves` | weed/server/filer_grpc_server.go:295-301 | appended data chunks come behind the data of the entry |
| `Cleanup.PlacedCovers` | weed/server/filer_grpc_server.go:295-298 | the appended chunks cover exactly the positions from the end of the file on |
| `Cleanup.FlushKeepsContent` | weed/filesys/filehandle.go:213-219 | compacting an entry with manifests keeps the content at a position exactly when the newest chunk there is listed itself |
| `Cleanup.FlushLosesManifest` | weed/filesys/filehandle.go:213-219 | an entry of one manifest of which nothing is left |
| `OpenEntry.SoundAppend` | weed/filesys/file.go:233-252 | new chunks at the end of the list come behind its data chunks, whatever manifests it has |
| `OpenEntry.ListedContent` | weed/filesys/filehandle.go:213-219 | the chunk shown at a position is kept exactly when it is listed directly |
| `OpenEntry.KeptAgain` | weed/server/filer_grpc_server.go:255-262 | the compaction of the filer changes nothing in what the mount compacted |
| `OpenEntry.FilerStores` | weed/server/filer_grpc_server.go:153-176 | the filer stores the mount's list as it is, or bundles the kept chunks itself when the mount could not |
| `OpenEntry.StoredSound` | weed/filesys/filehandle.go:213-231 | after the deletions of filer and mount the entry's list and the filer's list still resolve, the entry's to the kept chunks |
| `OpenEntry.RefusedSound` | weed/filesys/filehandle.go:219-225 | when the filer refuses, the entry lists the kept chunks and the filer's list is as it was |
| `OpenEntry.StoredDeletes` | weed/filer2/filer_deletion.go:83-104 | a cached chunk is deleted exactly when the mount listed it and drops it, or the filer's list named it and the new one does not |
| `FileStates.ServedIs` | weed/filesys/filehandle.go:83-118 | reads are served the byte last written where its blob is there, else nothing; the entry's content is the same where it shows the same chunk |
| `FileStates.TakesLaws` | weed/filesys/file.go:233-252 | a write into the buffer, with what it uploads: its bytes are the content and what reads are served from at its positions; elsewhere nothing changes |
| `FileStates.StoreDeletes` | weed/filer2/filer_deletion.go:83-104 | storing the entry deletes a chunk that shows exactly when the filer's list named it and this store bundles it |
| `FileStates.StoreLaws` | weed/filesys/filehandle.go:213-219 | storing the entry keeps the chunk shown at a position in it exactly when it is listed directly |
| `FileStates.PagesKept` | weed/filesys/filehandle.go:170-219 | the chunks a flush keeps, told from the state before it: the listed ones that show where nothing is dirty, then one for each dirty list |
| `FileStates.FlushReads` | weed/filesys/filehandle.go:170-231 | a flush changes no byte last written; the blob shown at a position is there afterwards exactly when it was and the flush does not both find it in the filer's list and bundle it |
| `FileStates.FlushContent` | weed/filesys/filehandle.go:170-231 | entry and reads show the same chunk afterwards exactly when they did and it is dirty or listed; the content stays if it is and is not deleted, and else another chunk or none shows |
| `FileRuns.NextLaws` | weed/filesys/filehandle.go:121-247 | one operation at one position: the effect on the byte last written, and exactly when it is still there and still in the entry |
| `FileRuns.RunWritten` | weed/filesys/filehandle.go:121-247 | over every run the byte last written is that of the last write covering the position |
| `FileRuns.RunServed` | weed/filesys/filehandle.go:121-247 | over every run reads are served that byte exactly when every flush that deletes the chunk shown there is followed by a write there; else nothing |
| `FileRuns.RunWhole` | weed/filesys/filehandle.go:121-247 | over every run the entry shows the chunk last written exactly when every flush that drops it is followed by a write there |
| `FileRuns.RunContent` | weed/filesys/filehandle.go:121-247 | where it does the content is the byte last written, or nothing if its blob was deleted |
| `FileRuns.RunKeepsAll` | weed/filesys/filehandle.go:121-247 | fewer chunks, dirty lists and writes than a batch, and no manifest: content and reads follow the writes everywhere |
| `LosingRuns.DotsKept` | weed/filesys/filehandle.go:213-219 | bytes with gaps between them need as many chunks, and compaction keeps as many |
| `LosingRuns.StoredIsLost` | weed/filer2/filer.go:205-214 | for every batch size above one: one write less than a batch, a flush, one more write and a flush lose all but the last write, for the entry and for reads |
| `LosingRuns.BundledIsLost` | weed/filesys/filehandle.go:170-247 | for every batch size: a batch of writes, a flush that bundles them, one more write and a flush lose all but the last write from the entry, though the open file still reads them |
| `MountFile.FileHandle.constructor` | weed/filesys/filehandle.go:83-99 | opening resolves the list the filer has; nothing is dirty, and the cached chunks are the data of the entry |
| `MountFile.FileHandle.AddChunks` | weed/filesys/file.go:233-252 | the cached intervals stay those of the cached chunks |
| `MountFile.FileHandle.Write` | weed/filesys/filehandle.go:121-152 | content and reads have the written bytes at their positions and are unchanged elsewhere; entry and reads show the same chunk there and elsewhere exactly where they did; the size is the greatest end written; chunks and dirty lists are at most one more; new chunks have new ids and the filer's list stays |
| `MountFile.FileHandle.FlushPages` | weed/filesys/filehandle.go:170-187 | no dirty list is left, each became one chunk of its own, no content changes, entry and reads agree exactly where they did |
| `MountFile.FileHandle.StoreEntry` | weed/filesys/filehandle.go:213-234 | the entry then has exactly the listed chunks that show, full batches in manifests when the mount can save them; the filer has the same list or bundles it itself, or refuses and nothing is deleted; else exactly the dropped chunks and those only the old list names are deleted |
| `MountFile.FileHandle.Flush` | weed/filesys/filehandle.go:170-247 | the whole flush, told from the state before it: the blob that reads show at a position stays exactly when it is not both in the filer's list and bundled now; the content stays if nothing is stored, or a dirty byte or a listed chunk that is not deleted shows there, and otherwise another chunk or none shows; entry and reads agree afterwards exactly where they did and the chunk is dirty or listed; the file stays dirty exactly on an error |
| `FileReads.ReadEndIs` | weed/filesys/filehandle.go:100-103 | reads reach a position exactly when it and all before it are covered by chunks and it is below 2^31 - 1 |
| `FileReads.ReadReaches` | weed/filesys/filehandle.go:100-118 | a read gets a byte from the chunks exactly when there is no hole before it, it is below 2^31 - 1 and every chunk shown from the start of the read up to it is there or in the chunk cache |
| `MountFile.FileHandle.ReadFromChunks` | weed/filesys/filehandle.go:83-118 | the buffer holds the bytes the views of the cached intervals show, up to the first that cannot be read, and zeros behind |
| `MountFile.FileHandle.ReadFromDirtyPages` | weed/filesys/filehandle.go:55-81 | the dirty bytes are laid over them and the count reaches as far as either |
| `MountFile.FileHandle.Read` | weed/filesys/filehandle.go:55-81 | a read returns the dirty byte, else the byte the views show as far as they can be read, else zero, and as many as either reach |
| `FileReads.ReadIsWritten` | weed/filesys/filehandle.go:55-118 | what a read returns is the byte last written at every dirty position and at every position it reaches where the front of the newest chunk still shows |
| `MountRuns.Step` | weed/filesys/filehandle.go:121-247 | each operation of the handle is a step of the states |
| `MountRuns.RunAll` | weed/filesys/filehandle.go:121-247 | any run of writes and flushes is a trace of the handle's states; reads are served the last byte written exactly where every flush that deletes its chunk is followed by a write, else nothing; entry and reads agree exactly where every flush that drops the chunk is followed by a write, and have the same content there; below one batch of chunks, dirty lists and writes, and without manifests, both follow the writes everywhere |
| `MountRuns.RunThenRead` | weed/filesys/filehandle.go:55-247 | a read after a run returns the last byte written at every position that is dirty, or reached with the front of its chunk showing; it returns zero where nothing is dirty and the views do not reach |
| `MountRuns.LoseDots` | weed/filesys/filehandle.go:121-247 | both losing runs on the handle of a new file, with the trace of its states: what was written and what is left of it |
| `Names.LessTotal` | weed/filer2/filer.go:279-284 | the order of names is total and strict |
| `Names.LessTransitive` | weed/filer2/filer.go:279-284 | the order of names is transitive |
| `Names.FirstNames` | weed/filer2/filer.go:280 | the store's listing: the first names of a set, in order |
| `Names.FirstOfUnique` | weed/filer2/filer.go:280 | that description determines the list |
| `Namespace.AncestorsStored` | weed/filer2/filer.go:114-177 | all proper ancestors of a stored entry are stored directories |
| `Namespace.NothingBelow` | weed/filer2/filer.go:164-167 | nothing is stored below a file or below a path that is not stored |
| `Namespace.WithParentsHas` | weed/filer2/filer.go:116-177 | making parents adds directories exactly at the missing proper prefixes and changes nothing else |
| `Namespace.WithParentsHoused` | weed/filer2/filer.go:116-177 | with the parents made every entry still lives in a stored directory |
| `Namespace.ParentsThere` | weed/filer2/filer.go:164-167 | on the way to a stored path nothing is made, so a create that fails changes nothing |
| `Namespace.NoneLogged` | weed/filer2/filer.go:192-209 | on the way to a stored path nothing is logged either |
| `Namespace.PutHoused` | weed/filer2/filer.go:192-209 | storing an entry in a stored directory, or over one of its kind, keeps the name space whole |
| `Namespace.NotifyFollows` | weed/filer2/filer_notify.go:18-53 | a follower that replays the event of one change follows the changed store, also when the change makes no event |
| `Namespace.ReplayDeletions` | weed/filer2/meta_replay.go:15-21 | replaying deletions takes exactly the named paths from the follower |
| `Namespace.DeletionsFollow` | weed/filer2/filer_delete_entry.go:56-101 | a follower that replays the deletions of a set of paths follows the store without them |
| `Namespace.PruneStep` | weed/filer2/filer_delete_entry.go:71-85 | emptying one more child directory is one step of emptying them all |
| `Namespace.ChunksMore` | weed/filer2/filer_delete_entry.go:73-81 | the chunks collected from two sets of entries are those of the files of both |
| `Namespace.AllPruned` | weed/filer2/filer_delete_entry.go:94-96 | with every child emptied, deleting the direct children leaves nothing below the directory |
| `Namespace.DeletingDone` | weed/filer2/filer_delete_entry.go:87-100 | then the directory is empty, nothing below it is cached, the log has exactly the deletions of it and all below, and the chunks collected are those of the files below |
| `Listing.RestAfter` | weed/filer2/filer.go:269-274 | after the visited names, expired ones deleted, the cursor stands before exactly the names not visited |
| `Listing.LiveMore` | weed/filer2/filer.go:270-273 | the makeup page continues the list of unexpired entries |
| `Listing.LiveDone` | weed/filer2/filer.go:262-277 | when all is visited or enough is found the list is the first unexpired entries |
| `Listing.PassedNext` | weed/filer2/filer_delete_entry.go:60-90 | after each page the cursor separates visited names from the others, and fewer are left |
| `Listing.NextCursor` | weed/server/filer_grpc_server.go:71-75 | after a page the last name sent is a right cursor, though later expired entries are already gone |
| `Listing.ReapedFollows` | weed/filer2/filer.go:286-290 | deleting expired children keeps followers right exactly when none of them is logged |
| `Listing.ReapedHoused` | weed/filer2/filer.go:286-290 | and the name space whole exactly when none of them has entries |
| `Listing.ReapedCache` | weed/filer2/filer.go:286-290 | and the directory cache right exactly when none of them is cached |
| `Listing.ChildrenGone` | weed/filer2/filer_delete_entry.go:94-96 | no child left and all else as before means that exactly the direct children are gone |
| `Filer.Filer.constructor` | weed/filer2/filer.go:44-59 | a filer starts with a whole name space, an empty cache and a follower that agrees |
| `Filer.Filer.FindEntry` | weed/filer2/filer.go:235-260 | the root is always a directory; any other path is what the store has |
| `Filer.Filer.NotifyUpdateEvent` | weed/filer2/filer_notify.go:18-72 | appends the event unless the rendered path starts with the system log directory |
| `Filer.Filer.Evict` | weed/filer2/filer.go:298-309 | losing a cached directory at any time harms nothing |
| `Filer.Filer.EnsureDirectory` | weed/filer2/filer.go:117-170 | finds or makes one directory, trusting the cache; fails exactly when a file is there; the follower keeps agreeing |
| `Filer.Filer.MakeDirectory` | weed/filer2/filer.go:132-162 | making a directory inside a stored one keeps the name space whole and the follower in agreement |
| `Filer.Filer.EnsureParents` | weed/filer2/filer.go:114-182 | fails exactly when some ancestor is a file, and then changes neither store nor log; else exactly the missing parents are made and logged from the top down, and all ancestors are cached |
| `Filer.Filer.CreateEntry` | weed/filer2/filer.go:104-219 | succeeds exactly when no ancestor is a file and the path is free, or holds the same kind and no exclusive create was asked for; a failed create changes nothing; a successful one logs the missing parents and then the entry; invariants, kinds and follower are kept |
| `Filer.Filer.UpdateEntry` | weed/filer2/filer.go:221-233 | stores the entry exactly when it is of the kind that is there |
| `Filer.Filer.DoListDirectoryEntries` | weed/filer2/filer.go:279-296 | one page: its unexpired entries in order, the number of expired ones, which are deleted, and the last name |
| `Filer.Filer.ListDirectoryEntries` | weed/filer2/filer.go:262-277 | terminates with exactly the first unexpired children after the cursor, as stored; only expired children up to there are deleted; followers keep agreeing exactly when none of these is logged, the invariant holds on exactly when none has entries or is cached |
| `Filer.Filer.DeleteFolderChildren` | weed/filer2/filer_delete_entry.go:94-96 | the directory has no children any more, and every path that is not its direct child holds what it held |
| `Filer.Filer.DeleteSub` | weed/filer2/filer_delete_entry.go:71-85 | after one child all below it is gone from store and cache, and it and all below it are logged, and the chunks of the files there are collected |
| `Filer.Filer.DeletePage` | weed/filer2/filer_delete_entry.go:71-85 | the same for a page |
| `Filer.Filer.DeleteChildren` | weed/filer2/filer_delete_entry.go:58-90 | every child is visited over the pages; without recursion it fails exactly when there is a child |
| `Filer.Filer.DoBatchDeleteFolder` | weed/filer2/filer_delete_entry.go:56-101 | empties the directory, logs exactly the deletions of it and all below and returns exactly the chunks of the files there; a refused delete changes nothing |
| `Filer.Filer.DeleteEntryMetaAndData` | weed/filer2/filer_delete_entry.go:13-117 | removes exactly the entry and all below it, or fails without change exactly when it is missing or a non-empty directory not to be deleted recursively; the chunks to delete are exactly its own and those of the files below; the follower keeps agreeing |
| `Renames.MovingAt` | weed/server/filer_grpc_server_rename.go:71-91 | what is at each path when some children have been moved |
| `Renames.MoveStep` | weed/server/filer_grpc_server_rename.go:80-87 | moving one more child is one step of moving them all |
| `Renames.RenameDoneAt` | weed/server/filer_grpc_server_rename.go:95-136 | with all children moved and the old directory deleted the rename is complete, path by path |
| `Renames.RenameMoves` | weed/server/filer_grpc_server_rename.go:46-136 | a rename moves exactly what was at and below the old path, with attributes and chunks, leaves nothing there, and elsewhere only makes missing parents |
| `Renames.RenameKeeps` | weed/server/filer_grpc_server_rename.go:46-136 | no path changes its kind in a rename |
| `FilerServer.FilerServer.MovePage` | weed/server/filer_grpc_server_rename.go:80-87 | a page of children is moved one after the other |
| `FilerServer.FilerServer.MoveFolderSubEntries` | weed/server/filer_grpc_server_rename.go:62-93 | terminates with every child moved, though each page is listed after the one before was deleted |
| `FilerServer.FilerServer.MoveEntry` | weed/server/filer_grpc_server_rename.go:46-136 | to a free path outside the entry: fails without change exactly when a file is among its ancestors, else the store is the renamed one; the follower keeps agreeing |
| `FilerServer.FilerServer.AtomicRenameEntry` | weed/server/filer_grpc_server_rename.go:14-44 | the whole call: not found, same path, file in the way, or renamed |
| `FilerServer.FilerServer.UpdateEntry` | weed/server/filer_grpc_server.go:186-241 | updates exactly an entry of the same kind; the event goes out whenever the entry would change; the follower keeps agreeing exactly when the kinds agree, nothing was there, or the path makes no events |
| `FilerServer.FilerServer.SendPage` | weed/server/filer_grpc_server.go:73-99 | sends the matching entries of a page until enough are sent |
| `FilerServer.FilerServer.ListEntries` | weed/server/filer_grpc_server.go:45-108 | terminates with exactly the first unexpired entries after the cursor whose names have the prefix, as many as the limit or the default |
| `FilerServer.UpdateFollows` | weed/server/filer_grpc_server.go:232-238 | after the event of an update a follower agrees with the updated store, and with the old one exactly when the path makes no events |
| `FilerRuns.Step` | weed/filer2/filer.go:104-233 | every operation keeps the name space, the kinds and the agreement with the follower, the last unless it is an update that asks for another kind |
| `FilerRuns.RunAll` | weed/filer2/filer.go:104-233 | in every run all stored entries live in stored directories, none changes its kind in place, cached paths are stored directories, and a follower agrees at the end |
| `Follower.Follower.Apply` | weed/filer2/meta_replay.go:11-37 | one event: delete what was there, insert what is there now without extended attributes |
| `Follower.Follower.CatchUp` | weed/filer2/meta_replay.go:11-37 | replaying the whole log gives the filer's entries outside the system log |
| `Follower.RefusedUpdateMisleads` | weed/server/filer_grpc_server.go:232-238 | a refused update after which the follower has a directory where the filer has a file |
| `FsCache.FsCache.constructor` | weed/filesys/fscache.go:22-28 | a tree with only the root |
| `FsCache.FsCache.Find` | weed/filesys/fscache.go:104-110 | following the children reaches exactly the node at the path |
| `FsCache.FsCache.DoGetFsNode` | weed/filesys/fscache.go:38-47 | the object at the path, nothing when there is no node |
| `FsCache.FsCache.EnsureChild` | weed/filesys/fscache.go:168-187 | the tree gains at most one empty leaf, linked both ways |
| `FsCache.FsCache.EnsureQuietly` | weed/filesys/fscache.go:116-119 | making nodes on the way to a path changes no lookup |
| `FsCache.FsCache.DoSetFsNode` | weed/filesys/fscache.go:57-63 | exactly the lookup of that path changes |
| `FsCache.FsCache.EnsureFsNode` | weed/filesys/fscache.go:65-77 | the object that was there, or the new one put there; no other lookup changes |
| `FsCache.FsCache.Disconnect` | weed/filesys/fscache.go:189-194 | cuts off exactly the subtree, which stays a tree, and the rest stays a tree |
| `FsCache.DeleteSelf` | weed/filesys/fscache.go:196-207 | empties every node of a detached tree |
| `FsCache.FsCache.DeleteFsNode` | weed/filesys/fscache.go:79-95 | lookups at and below the path return nothing, all others are unchanged, also for the root |
| `FsCache.FsCache.ConnectToParent` | weed/filesys/fscache.go:140-155 | panics exactly when a directory or file is to go under no directory, and then nothing is linked; else the detached tree hangs at the free path and the whole is a tree again |
| `FsCache.FsCache.Move` | weed/filesys/fscache.go:97-138 | the trie stays well formed; lookups under the new path are those that were under the old one, the old path is empty outside the new one, all others are unchanged; without a source nothing changes; it panics exactly when the new path is the root or the new parent will not do, and then both paths are empty and all else is unchanged |
| `FsCache.MovePanics` | weed/filesys/fscache.go:146-151 | for a directory or file that is exactly a new path below it, or one whose parent is not cached as a directory |
| `FsCache.MoveShows` | weed/filesys/fscache.go:111-137 | cutting off, clearing the target and putting in place add up to a move of lookups |
| `FsCache.MoveRoundTrip` | weed/filesys/fscache.go:97-138 | moving to a free path and back restores every lookup |
| `FsCache.UnderTree` | weed/filesys/fscache.go:196-207 | what is under a node of a tree is a tree |
| `FsCache.GraftRooted` | weed/filesys/fscache.go:140-155 | two trees of different nodes joined at a free path have no cycle and no shared node |
| `Sequencer.NextSetKeeps` | weed/sequence/etcd_sequencer.go:138-178 | the conditional write of a new block keeps the invariant and never lowers the register, whatever its outcome |
| `Sequencer.MaxWriteKeeps` | weed/sequence/etcd_sequencer.go:180-219 | so do the writes that raise the maximum |
| `Sequencer.IssueKeeps` | weed/sequence/etcd_sequencer.go:81-111 | handing out ids from a block keeps all ranges apart |
| `Sequencer.DoKeeps` | weed/sequence/etcd_sequencer.go:81-219 | every step of every master keeps the invariant, and the register never decreases |
| `Sequencer.RunSafe` | weed/sequence/etcd_sequencer.go:81-219 | so does every interleaving |
| `Sequencer.NoIdTwice` | weed/sequence/etcd_sequencer.go:81-111 | any two ranges handed out by any masters in any interleaving are disjoint |
| `Sequencer.LaterIdsAboveFloor` | weed/sequence/etcd_sequencer.go:113-128 | later ids of a master are at or above its floor |
| `Sequencer.SetMaxHolds` | weed/sequence/etcd_sequencer.go:113-128 | after SetMax of a value above the local maximum has succeeded all later ids of that master are at least the value |
| `Sequencer.SetMaxIgnored` | weed/sequence/etcd_sequencer.go:113-128 | in every reachable idle state: with a value not above the local maximum it does nothing, and every later id of the master reaches the value or comes from the rest of its block |
| `Sequencer.SetMaxIgnoredExact` | weed/sequence/etcd_sequencer.go:113-128 | all later ids, in every continuation, reach the value exactly when the next id already did or the block is too short for the smallest request |
| `Sequencer.GuardHolds` | weed/sequence/etcd_sequencer.go:81-111 | no run of any masters gets an id below the value out of such a block |
| `AdminLock.AdminLocks.LeaseAdminToken` | weed/server/master_grpc_server_admin.go:113-130 | grants exactly a free or expired lock or a renewal with the current token, and returns a valid token |
| `AdminLock.AdminLocks.ReleaseAdminToken` | weed/server/master_grpc_server_admin.go:132-138 | deletes the lock exactly for the current token |
| `AdminLock.StaysLocked` | weed/server/master_grpc_server_admin.go:76-111 | a granted lock stays until the next grant or a release with its token |
| `AdminLock.ConsecutiveGrants` | weed/server/master_grpc_server_admin.go:113-138 | two consecutive grants are a renewal with the current time and token, or have a release between them, or the second found the first expired |
| `AdminLock.HoldersApart` | weed/server/master_grpc_server_admin.go:76-138 | with a clock that never goes back two different holders are at least the lock duration apart |
| `ChunkWire.ParseHexUint` | weed/s3api/chunked_reader_v4.go:385-404 | the exact value of up to 16 hex digits; more digits or other bytes are refused, each with its error |
| `ChunkWire.HexRoundTrip` | weed/s3api/chunked_reader_v4.go:385-404 | parsing undoes the writing of hex numbers |
| `ChunkWire.HeaderRoundTrip` | weed/s3api/chunked_reader_v4.go:329-383 | a header line is read back as its size and signature, and exactly the line is consumed |
| `ChunkWire.HeaderConsumes` | weed/s3api/chunked_reader_v4.go:177-194 | a header that is read without error consumes input, so reading makes progress |
| `ChunkedReader.HeaderOnPlan` | weed/s3api/chunked_reader_v4.go:177-194 | on a well-formed upload reading a header loses no data |
| `ChunkedReader.VerifyOnPlan` | weed/s3api/chunked_reader_v4.go:286-304 | on a well-formed upload every signature matches |
| `ChunkedReader.VerifyTrusted` | weed/s3api/chunked_reader_v4.go:286-304 | a chunk is accepted only with the signature that follows from the one before it and its data |
| `ChunkedReader.S3ChunkedReader.Take` | weed/s3api/chunked_reader_v4.go:251-285 | takes the next bytes of the chunk, which are the next bytes of the data |
| `ChunkedReader.S3ChunkedReader.Read` | weed/s3api/chunked_reader_v4.go:230-309 | fills the buffer or ends; the end is reported only when all that was read is covered by matching signatures; an error returns no bytes |
| `ChunkedReader.ReadSeries` | weed/s3api/chunked_reader_v4.go:230-309 | reads of any sizes deliver the data in order and report the end exactly when all of it was asked for |

## Left out

- DirtyIntervals.ContinuousIntervals.AddInterval: requires non-empty data. An empty write, which only a FUSE request without data makes, adds an empty node. A second one at the same place finds the empty list on both sides: it is put into the new lists twice and its two nodes are linked in a circle; one of the two places is then removed, the list stays, and reading it does not end.
- DirtyPages.ContinuousDirtyPages.AddPage: uploads succeed and writes have data; an upload error loses the chunks already flushed, and the retry of a failing upload is not modelled.
- MountFile.FileHandle.Flush: apart from saves of manifests that fail, calls succeed and manifests can be read. Deletions take effect at once; in the code they are queued. The entry is not changed by others while the file is open.
- MountFile.FileHandle.Read: sub-ranges of a request and the check of the reader's file size are not modelled; the window does not end beyond the 64-bit limit. A new reader is made for each read, while the code keeps it until chunks are added; what a kept reader does is stated by ReaderAt.ChunkReadAt.ReadAt.
- MountRuns.RunThenRead: the chunk cache is a set of ids that is given; which blobs it keeps is not modelled.
- FileStates.ServedIs: what reads are served from is stated without the chunk cache, which can still hold a deleted chunk; with it reads are FileReads.ReadReaches.
- FileRuns.RunKeepsAll: the bound of one batch is enough and not necessary; the exact conditions are FileRuns.RunServed and FileRuns.RunWhole.
- MountFile.FileHandle.AddChunks: treats the two interval buffers as separate values; the shared case is SharedBuffers.AddChunksSlices.
- Visibility.VisibleOwner: requires distinct times, since the sort is not stable, and no empty chunk; lists with empty chunks are EmptyChunks.VisibleExact.
- Visibles.MergeIntoVisibles: treats the two interval buffers as separate values; the shared case is SharedBuffers.MergeSlices.
- SharedBuffers.SlicesExact: chunks are not empty, and the capacity of a new array depends on the old capacity only.
- Manifests.DoMaybeManifestize: requires a list that resolves; encryption, compression and the bytes of the manifest message are not modelled.
- Filer.Filer.FindEntry: the expiry of a single entry is not modelled; outside of listings nothing has expired.
- Filer.Filer.CreateEntry: a path has no empty component; buckets are not modelled; the deletion of replaced chunks is Cleanup.CreateEntry.
- Filer.Filer.DeleteEntryMetaAndData: store calls succeed and recursive errors are not ignored; whether the collected chunks are then deleted, and the collection of a bucket, are not modelled.
- FilerServer.FilerServer.AtomicRenameEntry: requires a target that is free and not inside the source, or the source itself; merging into an existing target and the rollback of transactions are not modelled.
- FilerServer.FilerServer.UpdateEntry: takes the merged entry as an argument; how attributes are merged is not modelled, the clean-up of chunks is Cleanup.CleanupChunks.
- FilerRuns.RunAll: expired entries are not listed in these runs; what their deletion does is stated by Filer.Filer.ListDirectoryEntries.
- FsCache.FsCache.Move: the root is not moved; the names and parents kept in the file and directory objects themselves are not modelled.
- Sequencer.NoIdTwice: ids are unbounded here, so overflow of 64 bits is not modelled; the etcd client is one register with conditional writes that may be applied although the caller sees an error.
- AdminLock.AdminLocks.LeaseAdminToken: each call is one step; the clock and the random token are arguments.
- ChunkedReader.S3ChunkedReader.Read: the signature function is an argument; nothing is assumed about it but the form of its result.
- ChunkedReader.ReadSeries: the bytes after the last chunk of the upload are not read.
- Volume servers, needle storage, erasure coding, replication and the raft of masters.
- The wire formats of protocol buffers, HTTP and FUSE, and the stores behind the filer (LevelDB, SQL, Redis, Cassandra).
- The message broker, WebDAV, the S3 API apart from the chunked reader, and the shell commands.
- Truncation in Setattr, extended attributes, quotas and caches of chunks on disk.
