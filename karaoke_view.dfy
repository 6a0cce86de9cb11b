/**
 * The decision logic of the karaoke screen (src/components/karaoke.tsx):
 * the song search predicate, the gating of the "download from YouTube"
 * dialog, and the queue-position label of the song list. Rendering is not
 * modelled; `formatSongName` and `getYoutubeIdFromUrl` are taken as inputs.
 */
module KaraokeView {

  import opened Wrappers
  import opened Strings
  import opened Songs

  /** `toLowerCase` on one character, for ASCII letters. */
  function LowerChar(c: char): char {
    if 'A' <= c <= 'Z' then ((c as int) + 32) as char else c
  }

  /** `toLowerCase` on a string, character by character. */
  function ToLower(s: string): (r: string)
    ensures |r| == |s|
    ensures forall i :: 0 <= i < |s| ==> r[i] == LowerChar(s[i])
    ensures forall i :: 0 <= i < |r| ==> !('A' <= r[i] <= 'Z')
  {
    seq(|s|, i requires 0 <= i < |s| => LowerChar(s[i]))
  }

  /** Lowering an already lowered string changes nothing. */
  lemma ToLowerIdempotent(s: string)
    ensures ToLower(ToLower(s)) == ToLower(s)
  {
    assert forall i :: 0 <= i < |s| ==> ToLower(ToLower(s))[i] == ToLower(s)[i];
  }

  /** `q` occurs somewhere in `s`: the meaning of `s.indexOf(q) >= 0`. */
  predicate Contains(s: string, q: string) {
    exists i :: 0 <= i <= |s| && OccursAt(s, q, i)
  }

  /**
   * JavaScript `s.indexOf(q, from)`: the first position at or after `from`
   * where `q` occurs, or -1 when there is none.
   */
  function IndexOfFrom(s: string, q: string, from: nat): (r: int)
    requires from <= |s|
    ensures r == -1 || (from <= r <= |s| && OccursAt(s, q, r))
    ensures r == -1 <==> forall i :: from <= i <= |s| ==> !OccursAt(s, q, i)
    ensures r >= 0 ==> forall i :: from <= i < r ==> !OccursAt(s, q, i)
    decreases |s| - from
  {
    if OccursAt(s, q, from) then from
    else if from == |s| then -1
    else IndexOfFrom(s, q, from + 1)
  }

  /** JavaScript `s.indexOf(q)`. */
  function IndexOf(s: string, q: string): (r: int)
    ensures r >= 0 <==> Contains(s, q)
    ensures r >= 0 ==> OccursAt(s, q, r) && forall i :: 0 <= i < r ==> !OccursAt(s, q, i)
  {
    IndexOfFrom(s, q, 0)
  }

  /**
   * `filterSong`: with `exactMatch`, the lowered formatted name equals the
   * lowered query; otherwise the lowered query occurs in the lowered name.
   */
  function FilterSong(query: string, formattedName: string, exactMatch: bool): (r: bool)
    ensures exactMatch ==> (r <==> ToLower(formattedName) == ToLower(query))
    ensures !exactMatch ==> (r <==> Contains(ToLower(formattedName), ToLower(query)))
  {
    var normalizedTitle := ToLower(formattedName);
    var normalizedQuery := ToLower(query);
    if exactMatch then normalizedTitle == normalizedQuery
    else IndexOf(normalizedTitle, normalizedQuery) >= 0
  }

  /** A song that matches exactly also matches as a substring. */
  lemma ExactMatchIsSubstringMatch(query: string, formattedName: string)
    requires FilterSong(query, formattedName, true)
    ensures FilterSong(query, formattedName, false)
  {
    var t := ToLower(formattedName);
    assert OccursAt(t, ToLower(query), 0) by { assert t[0..|t|] == t; }
  }

  /** The empty query matches every song. */
  lemma EmptyQueryMatchesAll(formattedName: string)
    ensures FilterSong("", formattedName, false)
  {
    assert OccursAt(ToLower(formattedName), ToLower(""), 0);
  }

  /** Case does not matter to the search: a query and its lowered form match the same songs. */
  lemma FilterIgnoresQueryCase(query: string, formattedName: string, exactMatch: bool)
    ensures FilterSong(ToLower(query), formattedName, exactMatch) == FilterSong(query, formattedName, exactMatch)
  {
    ToLowerIdempotent(query);
  }

  /** `alreadyExists`: some available song has the extracted id as its key. */
  function AlreadyExists(youtubeId: Option<string>, availableSongs: seq<SongInfo>): (r: bool)
    ensures r <==> youtubeId.Some? && FindByKey(availableSongs, youtubeId.value).Some?
  {
    youtubeId.Some? && HasKey(availableSongs, youtubeId.value)
  }

  /** `canDownload`: an id was extracted and no available song has it. */
  function CanDownload(youtubeId: Option<string>, availableSongs: seq<SongInfo>): (r: bool)
    ensures r ==> youtubeId.Some? && youtubeId.value != "" && !HasKey(availableSongs, youtubeId.value)
    ensures youtubeId.Some? && youtubeId.value != "" && !HasKey(availableSongs, youtubeId.value) ==> r
  {
    Truthy(youtubeId) && !AlreadyExists(youtubeId, availableSongs)
  }

  /** Which download is in progress, if any (`downloadingState`). */
  datatype DownloadingState = DownloadOnly | DownloadAndQueue

  /** Both download buttons: disabled unless a download is possible and none is in progress. */
  function DownloadButtonsDisabled(youtubeId: Option<string>, availableSongs: seq<SongInfo>,
                                   downloadingState: Option<DownloadingState>): (r: bool)
    ensures !r <==> downloadingState.None? && youtubeId.Some? && youtubeId.value != ""
                    && !HasKey(availableSongs, youtubeId.value)
  {
    !CanDownload(youtubeId, availableSongs) || downloadingState.Some?
  }

  /** The callout shown under the URL field. */
  datatype Callout =
    | Downloadable(youtubeId: string)   // primary: "This song can be downloaded."
    | AlreadyListed(youtubeId: string)  // warning: already in the list of available songs
    | NoIdFound                         // warning: "No YouTube video ID found."
    | NoCallout

  /** The callout for the typed URL and the id extracted from it. */
  function CalloutFor(youtubeUrl: string, youtubeId: Option<string>, availableSongs: seq<SongInfo>): (r: Callout)
    ensures r.Downloadable? <==> CanDownload(youtubeId, availableSongs)
    ensures r.AlreadyListed? <==> Truthy(youtubeId) && HasKey(availableSongs, youtubeId.value)
    ensures r.NoIdFound? <==> !Truthy(youtubeId) && youtubeUrl != ""
    ensures r.NoCallout? <==> !Truthy(youtubeId) && youtubeUrl == ""
    ensures (r.Downloadable? || r.AlreadyListed?) ==> r.youtubeId == youtubeId.value
  {
    var alreadyExists := AlreadyExists(youtubeId, availableSongs);
    if Truthy(youtubeId) && !alreadyExists then Downloadable(youtubeId.value)
    else if Truthy(youtubeId) && alreadyExists then AlreadyListed(youtubeId.value)
    else if !Truthy(youtubeId) && youtubeUrl != "" then NoIdFound
    else NoCallout
  }

  /** With the buttons enabled the callout says the song can be downloaded. */
  lemma EnabledButtonsShowDownloadable(youtubeUrl: string, youtubeId: Option<string>,
                                       availableSongs: seq<SongInfo>, downloadingState: Option<DownloadingState>)
    requires !DownloadButtonsDisabled(youtubeId, availableSongs, downloadingState)
    ensures CalloutFor(youtubeUrl, youtubeId, availableSongs) == Downloadable(youtubeId.value)
  {
  }

  /** The add-to-queue button of one row of the song list. */
  datatype QueueButton = QueueButton(disabled: bool, title: string, text: string)

  /**
   * The row's button: a queued song (found by key with `findIndex`) shows
   * `#n in Queue` for its first position n (counting from 1) and is disabled.
   */
  function QueueButtonFor(song: SongInfo, songQueue: seq<SongInfo>): (r: QueueButton)
    ensures r.disabled <==> HasKey(songQueue, song.key)
    ensures !r.disabled ==> r.text == "Add to Queue" && r.title == "Add to Queue"
    ensures r.disabled ==> r.title == "Song is queued"
    ensures r.disabled ==>
              exists pos :: 0 <= pos < |songQueue| && songQueue[pos].key == song.key &&
                             (forall k :: 0 <= k < pos ==> songQueue[k].key != song.key) &&
                             r.text == "#" + Decimal(pos + 1) + " in Queue"
  {
    var queuePosition := FindIndexByKey(songQueue, song.key);
    var inQueue := queuePosition >= 0;
    QueueButton(inQueue,
                if inQueue then "Song is queued" else "Add to Queue",
                if inQueue then "#" + Decimal(queuePosition + 1) + " in Queue" else "Add to Queue")
  }

  /** In a duplicate-free queue the label names the song's own position. */
  lemma QueueLabelNamesPosition(song: SongInfo, songQueue: seq<SongInfo>, j: nat)
    requires DistinctKeys(songQueue)
    requires j < |songQueue| && songQueue[j].key == song.key
    ensures QueueButtonFor(song, songQueue).text == "#" + Decimal(j + 1) + " in Queue"
  {
    FoundIndexIsUnique(songQueue, song.key, j);
  }

  /** Two queued songs with different keys show different labels. */
  lemma QueueLabelsDiffer(a: SongInfo, b: SongInfo, songQueue: seq<SongInfo>)
    requires HasKey(songQueue, a.key) && HasKey(songQueue, b.key) && a.key != b.key
    ensures QueueButtonFor(a, songQueue).text != QueueButtonFor(b, songQueue).text
  {
    var i := FindIndexByKey(songQueue, a.key);
    var j := FindIndexByKey(songQueue, b.key);
    var ta := "#" + Decimal(i + 1) + " in Queue";
    var tb := "#" + Decimal(j + 1) + " in Queue";
    if ta == tb {
      assert ta[1..|ta| - 9] == Decimal(i + 1);
      assert tb[1..|tb| - 9] == Decimal(j + 1);
      DecimalInjective(i + 1, j + 1);
    }
  }
}
