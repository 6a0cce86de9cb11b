/**
 * The karaoke queue controller (src/state/redux-slices/karaoke/thunks.ts).
 * The queue lives in the shared Yjs document as the array "song-queue"; each
 * thunk checks the module-level `doc`, re-reads the array's current length,
 * guards the index and then edits the array with `delete`, `insert` and
 * `push`. The array is modelled as one replica's local sequence, without
 * replication or merging.
 */
module KaraokeThunks {

  import opened Wrappers
  import opened Strings
  import opened Songs
  import opened QueueSpec
  import KaraokeSlice

  /** A `Y.Array<SongInfo>` as one replica sees it. */
  class YArray {
    var items: seq<SongInfo>

    constructor ()
      ensures items == []
    {
      items := [];
    }

    /** `length`. */
    function Length(): (n: nat)
      reads this
      ensures n == |items|
    {
      |items|
    }

    /** `get(index)`: the entry, or `undefined` outside the array. */
    method Get(index: int) returns (r: Option<SongInfo>)
      ensures 0 <= index < |items| ==> r == Some(items[index])
      ensures !(0 <= index < |items|) ==> r == None
    {
      r := if 0 <= index < |items| then Some(items[index]) else None;
    }

    /** `toArray()`: a copy of the contents. */
    method ToArray() returns (r: seq<SongInfo>)
      ensures r == items
    {
      r := items;
    }

    /** `delete(index, count)`; Yjs throws when the range leaves the array, which no caller here allows. */
    method Delete(index: nat, count: nat)
      requires index + count <= |items|
      modifies this
      ensures items == old(items[..index] + items[index + count..])
    {
      items := items[..index] + items[index + count..];
    }

    /** `insert(index, content)`; Yjs throws when `index` is past the end, which no caller here allows. */
    method Insert(index: nat, content: seq<SongInfo>)
      requires index <= |items|
      modifies this
      ensures items == old(items[..index]) + content + old(items[index..])
    {
      items := items[..index] + content + items[index..];
    }

    /** `push(content)`. */
    method Push(content: seq<SongInfo>)
      modifies this
      ensures items == old(items) + content
    {
      items := items + content;
    }
  }

  /** A `Y.Doc`; only its "song-queue" array is used by the queue thunks. */
  class YDoc {
    const songQueue: YArray

    constructor ()
      ensures fresh(songQueue) && songQueue.items == []
    {
      songQueue := new YArray();
    }
  }

  /** How a thunk settles: fulfilled, or rejected with the message of the error it threw. */
  datatype Outcome = Fulfilled | Rejected(message: string)

  /** How `downloadSong` gets as far as the network, or why it does not. */
  datatype DownloadStep =
    | DownloadRejected(message: string)   // an error was thrown
    | DownloadReturnedError(message: string)  // an `Error` was returned as the payload, not thrown
    | PostRequest(url: string)              // the POST to the host that the model does not follow

  const NotInitialized := "Yjs document not initialized"
  const DuplicateSong := "DUPLICATE_SONG"
  const HostingAddressNotSet := "Hosting address not set"

  function AlreadyInLibrary(key: string): string {
    "Song with id " + key + " already exists in song library."
  }

  /** The module's `doc` singleton and the thunks that use it. */
  class KaraokeThunks {
    var doc: YDoc?

    /** Before `initKaraoke` the document is `null`. */
    constructor ()
      ensures doc == null
    {
      doc := null;
    }

    /** What a queue thunk may change: the shared queue, when there is a document. */
    function QueueFrame(): set<object>
      reads this
    {
      if doc == null then {} else {doc.songQueue}
    }

    /** `demoteSong(index)`: one place towards the tail when `0 <= index < length - 1`. */
    method DemoteSong(index: int) returns (r: Outcome)
      modifies QueueFrame()
      ensures doc == null ==> r == Rejected(NotInitialized)
      ensures doc != null ==> r == Fulfilled && doc.songQueue.items == Demote(old(doc.songQueue.items), index)
      ensures doc != null && DistinctKeys(old(doc.songQueue.items)) ==> DistinctKeys(doc.songQueue.items)
    {
      if doc == null {
        return Rejected(NotInitialized);
      }
      var songQueue := doc.songQueue;
      ghost var before := songQueue.items;
      if index < 0 || index >= songQueue.Length() - 1 {
        return Fulfilled;
      }
      ReinsertAfter(before, index);
      var song := songQueue.Get(index);
      songQueue.Delete(index, 1);
      songQueue.Insert(index + 1, [song.value]);
      if DistinctKeys(before) { DemoteKeepsDistinct(before, index); }
      r := Fulfilled;
    }

    /** `promoteSong(index)`: one place towards the head when `0 < index < length`. */
    method PromoteSong(index: int) returns (r: Outcome)
      modifies QueueFrame()
      ensures doc == null ==> r == Rejected(NotInitialized)
      ensures doc != null ==> r == Fulfilled && doc.songQueue.items == Promote(old(doc.songQueue.items), index)
      ensures doc != null && DistinctKeys(old(doc.songQueue.items)) ==> DistinctKeys(doc.songQueue.items)
    {
      if doc == null {
        return Rejected(NotInitialized);
      }
      var songQueue := doc.songQueue;
      ghost var before := songQueue.items;
      if index <= 0 || index >= songQueue.Length() {
        return Fulfilled;
      }
      ReinsertBefore(before, index);
      var song := songQueue.Get(index);
      songQueue.Delete(index, 1);
      songQueue.Insert(index - 1, [song.value]);
      if DistinctKeys(before) { PromoteKeepsDistinct(before, index); }
      r := Fulfilled;
    }

    /** `addToQueue(song)`: refused with "DUPLICATE_SONG" when the key is queued, else appended. */
    method AddToQueue(song: SongInfo) returns (r: Outcome)
      modifies QueueFrame()
      ensures doc == null ==> r == Rejected(NotInitialized)
      ensures doc != null && HasKey(old(doc.songQueue.items), song.key) ==>
                r == Rejected(DuplicateSong) && doc.songQueue.items == old(doc.songQueue.items)
      ensures doc != null && !HasKey(old(doc.songQueue.items), song.key) ==>
                r == Fulfilled && doc.songQueue.items == old(doc.songQueue.items) + [song]
      ensures doc != null ==> doc.songQueue.items == ApplyOp(old(doc.songQueue.items), AddSong(song))
      ensures doc != null && DistinctKeys(old(doc.songQueue.items)) ==> DistinctKeys(doc.songQueue.items)
    {
      if doc == null {
        return Rejected(NotInitialized);
      }
      var songQueue := doc.songQueue;
      var current := songQueue.ToArray();
      var existingSong := FindByKey(current, song.key);
      if existingSong.Some? {
        return Rejected(DuplicateSong);
      }
      songQueue.Push([song]);
      if DistinctKeys(current) { AppendNewKeyKeepsDistinct(current, song); }
      r := Fulfilled;
    }

    /** `removeFromQueue(index)`: deletes entry `index` when `0 <= index < length`. */
    method RemoveFromQueue(index: int) returns (r: Outcome)
      modifies QueueFrame()
      ensures doc == null ==> r == Rejected(NotInitialized)
      ensures doc != null ==> r == Fulfilled && doc.songQueue.items == RemoveAt(old(doc.songQueue.items), index)
      ensures doc != null && DistinctKeys(old(doc.songQueue.items)) ==> DistinctKeys(doc.songQueue.items)
    {
      if doc == null {
        return Rejected(NotInitialized);
      }
      var songQueue := doc.songQueue;
      ghost var before := songQueue.items;
      if index < 0 || index >= songQueue.Length() {
        return Fulfilled;
      }
      songQueue.Delete(index, 1);
      if DistinctKeys(before) { RemoveAtKeepsDistinct(before, index); }
      r := Fulfilled;
    }

    /**
     * `setTopOfQueueAsNextSong()`: the head of the queue becomes the store's
     * currently playing song and leaves the queue; an empty queue changes nothing.
     */
    method SetTopOfQueueAsNextSong(store: KaraokeSlice.KaraokeStore) returns (r: Outcome)
      modifies store, QueueFrame()
      ensures doc == null ==> r == Rejected(NotInitialized) && store.currentlyPlaying == old(store.currentlyPlaying)
      ensures doc != null ==> r == Fulfilled
      ensures doc != null && |old(doc.songQueue.items)| > 0 ==>
                store.currentlyPlaying == Some(old(doc.songQueue.items[0])) &&
                doc.songQueue.items == old(doc.songQueue.items[1..])
      ensures doc != null && old(doc.songQueue.items) == [] ==>
                store.currentlyPlaying == old(store.currentlyPlaying) && doc.songQueue.items == []
      ensures store.songQueue == old(store.songQueue) && store.allSongs == old(store.allSongs)
    {
      if doc == null {
        return Rejected(NotInitialized);
      }
      var songQueue := doc.songQueue;
      var nextSong := songQueue.Get(0);
      if nextSong.Some? {
        store.SetCurrentlyPlaying(nextSong);
        songQueue.Delete(0, 1);
      }
      r := Fulfilled;
    }

    /**
     * The checks `downloadSong(song)` makes before its POST to the host: a
     * document must exist, the catalogue `allSongs` must not hold the key yet,
     * and a hosting address must be set; a missing address is returned as an
     * error value rather than thrown.
     */
    method DownloadSong(song: SongInfo, allSongs: seq<SongInfo>, hostingAddress: Option<string>)
      returns (r: DownloadStep)
      ensures doc == null ==> r == DownloadRejected(NotInitialized)
      ensures doc != null && HasKey(allSongs, song.key) ==> r == DownloadRejected(AlreadyInLibrary(song.key))
      ensures doc != null && !HasKey(allSongs, song.key) && !Truthy(hostingAddress) ==>
                r == DownloadReturnedError(HostingAddressNotSet)
      ensures r.PostRequest? <==> doc != null && !HasKey(allSongs, song.key) && Truthy(hostingAddress)
      ensures r.PostRequest? ==> r.url == hostingAddress.value + "/videos/" + song.key
    {
      if doc == null {
        return DownloadRejected(NotInitialized);
      }
      var duplicateSong := FindByKey(allSongs, song.key);
      if duplicateSong.Some? {
        return DownloadRejected(AlreadyInLibrary(song.key));
      }
      if !Truthy(hostingAddress) {
        return DownloadReturnedError(HostingAddressNotSet);
      }
      r := PostRequest(hostingAddress.value + "/videos/" + song.key);
    }
  }
}
