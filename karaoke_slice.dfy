/**
 * The karaoke slice of the Redux store (src/state/redux-slices/karaoke/slice.ts).
 * The Immer reducers update the state in place, so the state is a class whose
 * methods are the reducers. `songQueue` is a JavaScript array edited with
 * `push` and `splice`; `Splice` below gives `Array.prototype.splice` its exact
 * meaning, including negative and out-of-range start positions.
 */
module KaraokeSlice {

  import opened Wrappers
  import opened Songs
  import opened QueueSpec

  /** Where `splice(start, …)` starts on an array of length `len`: negative counts from the end, clamped to `0..len`. */
  function SpliceStart(len: nat, start: int): (s: nat)
    ensures s <= len
    ensures 0 <= start <= len ==> s == start
    ensures start > len ==> s == len
    ensures start < 0 ==> s == if len + start < 0 then 0 else len + start
  {
    if start < 0 then (if len + start < 0 then 0 else len + start)
    else if start > len then len
    else start
  }

  /** The array `splice` leaves and the entries it removes. */
  datatype Spliced<T> = Spliced(kept: seq<T>, removed: seq<T>)

  /** `a.splice(start, deleteCount, ...items)` on a copy of `a`. */
  function Splice<T>(a: seq<T>, start: int, deleteCount: int, items: seq<T>): Spliced<T> {
    var s := SpliceStart(|a|, start);
    var d := if deleteCount < 0 then 0 else if deleteCount > |a| - s then |a| - s else deleteCount;
    Spliced(a[..s] + items + a[s + d..], a[s..s + d])
  }

  /**
   * `splice` can be undone: the inserted items sit at the start position, and
   * putting the removed entries back in their place restores the array; at
   * most `deleteCount` entries are removed.
   */
  lemma SpliceCanBeUndone<T>(a: seq<T>, start: int, deleteCount: int, items: seq<T>)
    ensures var r := Splice(a, start, deleteCount, items);
            var s := SpliceStart(|a|, start);
            s + |items| <= |r.kept| && r.kept[s..s + |items|] == items &&
            r.kept[..s] + r.removed + r.kept[s + |items|..] == a
    ensures |Splice(a, start, deleteCount, items).removed| <= (if deleteCount < 0 then 0 else deleteCount)
  {
    var s := SpliceStart(|a|, start);
    var d := if deleteCount < 0 then 0 else if deleteCount > |a| - s then |a| - s else deleteCount;
    var kept := a[..s] + items + a[s + d..];
    assert kept[..s] == a[..s];
    assert kept[s..s + |items|] == items;
    assert kept[s + |items|..] == a[s + d..];
    assert a == a[..s] + a[s..s + d] + a[s + d..];
  }

  /** `splice` loses nothing and invents nothing: the kept and removed entries are the old ones plus the items. */
  lemma SpliceKeepsEntries<T>(a: seq<T>, start: int, deleteCount: int, items: seq<T>)
    ensures var r := Splice(a, start, deleteCount, items);
            multiset(r.kept) + multiset(r.removed) == multiset(a) + multiset(items)
  {
    var r := Splice(a, start, deleteCount, items);
    var s := SpliceStart(|a|, start);
    SpliceCanBeUndone(a, start, deleteCount, items);
    var front, rest := r.kept[..s], r.kept[s + |items|..];
    assert r.kept == front + items + rest;
    assert multiset(a) == multiset(front) + multiset(r.removed) + multiset(rest);
  }

  /**
   * `splice(i, 1)` removes the entry at the position `SpliceStart` picks:
   * index `i` when `0 <= i < |q|`, nothing when `i >= |q|`, and for a negative
   * `i` the entry `|q| + i`, or the head once `-i` exceeds the length.
   */
  lemma SpliceOneIsRemoveAt(q: seq<SongInfo>, i: int)
    ensures Splice(q, i, 1, []).kept == RemoveAt(q, SpliceStart(|q|, i))
    ensures 0 <= i ==> Splice(q, i, 1, []).kept == RemoveAt(q, i)
    ensures i < 0 && |q| > 0 ==> |Splice(q, i, 1, []).kept| == |q| - 1
  {
    var s := SpliceStart(|q|, i);
    if s < |q| {
      assert Splice(q, i, 1, []).kept == q[..s] + q[s + 1..];
    }
  }

  /** The Redux `KaraokeState`. */
  class KaraokeStore {
    var currentlyPlaying: Option<SongInfo>
    var songQueue: seq<SongInfo>
    var allSongs: seq<SongInfo>

    /** The initial state: nothing playing, empty queue, empty catalogue. */
    constructor ()
      ensures currentlyPlaying == None && songQueue == [] && allSongs == []
    {
      currentlyPlaying := None;
      songQueue := [];
      allSongs := [];
    }

    /** `_setCurrentlyPlaying`: only `currentlyPlaying` changes. */
    method SetCurrentlyPlaying(song: Option<SongInfo>)
      modifies this
      ensures currentlyPlaying == song
      ensures songQueue == old(songQueue) && allSongs == old(allSongs)
    {
      currentlyPlaying := song;
    }

    /** `_addToQueue`: appends unconditionally; unlike the thunk it does not refuse a duplicate key. */
    method AddToQueue(song: SongInfo)
      modifies this
      ensures songQueue == old(songQueue) + [song]
      ensures |songQueue| == |old(songQueue)| + 1
      ensures currentlyPlaying == old(currentlyPlaying) && allSongs == old(allSongs)
    {
      songQueue := songQueue + [song];
    }

    /** `_removeFromQueue`: `songQueue.splice(index, 1)`. */
    method RemoveFromQueue(index: int)
      modifies this
      ensures songQueue == RemoveAt(old(songQueue), SpliceStart(|old(songQueue)|, index))
      ensures 0 <= index ==> songQueue == RemoveAt(old(songQueue), index)
      ensures currentlyPlaying == old(currentlyPlaying) && allSongs == old(allSongs)
    {
      SpliceOneIsRemoveAt(songQueue, index);
      songQueue := Splice(songQueue, index, 1, []).kept;
    }

    /** `_setQueue`: the queue is replaced wholesale. */
    method SetQueue(queue: seq<SongInfo>)
      modifies this
      ensures songQueue == queue
      ensures currentlyPlaying == old(currentlyPlaying) && allSongs == old(allSongs)
    {
      songQueue := queue;
    }

    /** `_promoteSong`: removes entry `index` and re-inserts it one place earlier when `0 < index < length`. */
    method PromoteSong(index: int)
      modifies this
      ensures songQueue == Promote(old(songQueue), index)
      ensures currentlyPlaying == old(currentlyPlaying) && allSongs == old(allSongs)
    {
      if index > 0 && index < |songQueue| {
        var cut := Splice(songQueue, index, 1, []);
        assert cut == Spliced(songQueue[..index] + songQueue[index + 1..], [songQueue[index]]);
        ReinsertBefore(songQueue, index);
        var song := cut.removed[0];
        songQueue := Splice(cut.kept, index - 1, 0, [song]).kept;
      }
    }

    /** `_demoteSong`: removes entry `index` and re-inserts it one place later when `0 <= index < length - 1`. */
    method DemoteSong(index: int)
      modifies this
      ensures songQueue == Demote(old(songQueue), index)
      ensures currentlyPlaying == old(currentlyPlaying) && allSongs == old(allSongs)
    {
      if index >= 0 && index < |songQueue| - 1 {
        var cut := Splice(songQueue, index, 1, []);
        assert cut == Spliced(songQueue[..index] + songQueue[index + 1..], [songQueue[index]]);
        ReinsertAfter(songQueue, index);
        var song := cut.removed[0];
        songQueue := Splice(cut.kept, index + 1, 0, [song]).kept;
      }
    }

    /** `_setAllSongs`: the catalogue is replaced wholesale. */
    method SetAllSongs(songs: seq<SongInfo>)
      modifies this
      ensures allSongs == songs
      ensures currentlyPlaying == old(currentlyPlaying) && songQueue == old(songQueue)
    {
      allSongs := songs;
    }
  }

  /**
   * The reducer's append does no duplicate check: appending a song whose key is
   * already queued breaks key distinctness, which only the thunk guards.
   */
  lemma ReducerAppendCanDuplicate(q: seq<SongInfo>, song: SongInfo)
    requires HasKey(q, song.key)
    ensures !DistinctKeys(q + [song])
  {
    var i :| 0 <= i < |q| && q[i].key == song.key;
    assert (q + [song])[i].key == (q + [song])[|q|].key;
  }
}
