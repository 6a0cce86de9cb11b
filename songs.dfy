/** The song record shared by the front end, the Redux store and the Rust host. */
module Songs {

  import opened Wrappers

  /**
   * A song as the queue, the catalogue and the Rust `SongInfo` struct carry it.
   * `key` is the video id and the identity of the song; `artist` is optional.
   */
  datatype SongInfo = SongInfo(key: string, title: string, artist: Option<string>)

  /** Some entry of `songs` has the key `key` (JavaScript `songs.some(s => s.key === key)`). */
  predicate HasKey(songs: seq<SongInfo>, key: string) {
    exists i :: 0 <= i < |songs| && songs[i].key == key
  }

  /** No two entries of `songs` share a key. */
  predicate DistinctKeys(songs: seq<SongInfo>) {
    forall i, j :: 0 <= i < j < |songs| ==> songs[i].key != songs[j].key
  }

  /**
   * JavaScript `songs.findIndex(s => s.key === key)`: the first position
   * holding `key`, or -1 when there is none.
   */
  function FindIndexByKey(songs: seq<SongInfo>, key: string): (r: int)
    ensures -1 <= r < |songs|
    ensures r == -1 <==> !HasKey(songs, key)
    ensures r >= 0 ==> songs[r].key == key && forall k :: 0 <= k < r ==> songs[k].key != key
  {
    if |songs| == 0 then -1
    else if songs[0].key == key then 0
    else
      var r := FindIndexByKey(songs[1..], key);
      if r == -1 then
        assert forall i :: 1 <= i < |songs| ==> songs[i] == songs[1..][i - 1];
        -1
      else
        assert songs[r + 1] == songs[1..][r];
        assert forall k :: 1 <= k < r + 1 ==> songs[k] == songs[1..][k - 1];
        r + 1
  }

  /** JavaScript `songs.find(s => s.key === key)`: the first entry holding `key`. */
  function FindByKey(songs: seq<SongInfo>, key: string): (r: Option<SongInfo>)
    ensures r.Some? <==> HasKey(songs, key)
    ensures r.Some? ==> r.value.key == key && r.value in songs
    ensures r.Some? ==> exists i :: 0 <= i < |songs| && songs[i] == r.value &&
                                    forall k :: 0 <= k < i ==> songs[k].key != key
  {
    var i := FindIndexByKey(songs, key);
    if i >= 0 then Some(songs[i]) else None
  }

  /** In a duplicate-free list the entry found for `key` is the only one with that key. */
  lemma FoundIndexIsUnique(songs: seq<SongInfo>, key: string, j: int)
    requires DistinctKeys(songs)
    requires 0 <= j < |songs| && songs[j].key == key
    ensures FindIndexByKey(songs, key) == j
  {
  }
}
