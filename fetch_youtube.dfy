/**
 * The catalogue side of src-tauri/src/fetch_youtube.rs: the downloader names
 * each video `{id}.{title}` (remuxed to `.mp4`), and `get_available_songs`
 * turns the names found in the videos directory back into songs.
 */
module FetchYoutube {

  import opened Wrappers
  import opened Strings
  import opened Songs
  import opened FileSystem

  /** The suffix the remux to mp4 gives every downloaded file. */
  const Mp4 := ".mp4"

  /** Stand-in for the operating system's error text, which the model does not follow. */
  const IoError := "I/O error"

  /** The output name `format!("{id}.{title}")` handed to the downloader. */
  function OutputName(id: string, title: string): string {
    id + "." + title
  }

  /**
   * One file name read as `key.title.mp4`: split at the first `.`, every
   * trailing `.mp4` removed from the title. A name without `.` is no song.
   */
  function ParseFileName(name: string): (r: Option<SongInfo>)
    ensures r.Some? <==> '.' in name
    ensures r.Some? ==> '.' !in r.value.key && !EndsWith(r.value.title, Mp4) && r.value.artist.None?
    ensures r.Some? ==> StartsWith(name, r.value.key + ".")
  {
    match FirstIndexOf(name, '.')
    case None => None
    case Some(i) =>
      assert name[..i + 1] == name[..i] + ".";
      Some(SongInfo(name[..i], TrimEndMatches(name[i + 1..], Mp4), None))
  }

  /** The songs a listing yields, in listing order: one per file whose name has a dot; entry errors and other entries give none. */
  function SongsOf(entries: seq<DirEntry>): (songs: seq<SongInfo>)
    ensures |songs| <= |entries|
    ensures forall k :: 0 <= k < |songs| ==> '.' !in songs[k].key && !EndsWith(songs[k].title, Mp4)
  {
    if |entries| == 0 then []
    else
      var last := entries[|entries| - 1];
      var song := if last.File? then ParseFileName(last.name) else None;
      SongsOf(entries[..|entries| - 1]) + (if song.Some? then [song.value] else [])
  }

  /**
   * What one entry yields: a file whose name has a `.` gives the song its name
   * reads as; a name without `.`, a non-file and an entry error give none.
   */
  lemma SongsOfOne(e: DirEntry)
    ensures SongsOf([e]) == (if e.File? && '.' in e.name then [ParseFileName(e.name).value] else [])
  {
    assert [e][..0] == [];
  }

  /** A downloaded file `key.title.mp4` in a listing contributes exactly `SongInfo(key, title)` at its place. */
  lemma DownloadedFileGivesSong(before: seq<DirEntry>, key: string, title: string, after: seq<DirEntry>)
    requires '.' !in key && !EndsWith(title, Mp4)
    ensures SongsOf(before + [File(OutputName(key, title) + Mp4)] + after)
            == SongsOf(before) + [SongInfo(key, title, None)] + SongsOf(after)
  {
    var e := File(OutputName(key, title) + Mp4);
    SongsOfAppend(before + [e], after);
    SongsOfAppend(before, [e]);
    ParseOutputName(key, title);
    assert '.' in e.name by { assert e.name[|key|] == '.'; }
    SongsOfOne(e);
  }

  /** Listing order is kept: the songs of two listings one after the other are the two song lists concatenated. */
  lemma {:induction false} SongsOfAppend(a: seq<DirEntry>, b: seq<DirEntry>)
    ensures SongsOf(a + b) == SongsOf(a) + SongsOf(b)
    decreases |b|
  {
    if |b| > 0 {
      var b' := b[..|b| - 1];
      var last := b[|b| - 1];
      var song := if last.File? then ParseFileName(last.name) else None;
      var tail := if song.Some? then [song.value] else [];
      assert (a + b)[..|a + b| - 1] == a + b';
      assert (a + b)[|a + b| - 1] == last;
      assert SongsOf(a + b) == SongsOf(a + b') + tail;
      assert SongsOf(b) == SongsOf(b') + tail;
      SongsOfAppend(a, b');
    } else {
      assert a + b == a;
    }
  }

  /** A name whose first `.` follows a dot-free `key` splits there. */
  lemma ParseDottedName(key: string, rest: string)
    requires '.' !in key
    ensures ParseFileName(key + "." + rest) == Some(SongInfo(key, TrimEndMatches(rest, Mp4), None))
  {
    var name := key + "." + rest;
    assert name == key + ['.'] + rest;
    FirstIndexAfterPrefix(key, '.', rest);
    assert name[..|key|] == key && name[|key| + 1..] == rest;
  }

  /** A file named by the downloader reads back as the id and title it was named with, with or without `.mp4`. */
  lemma ParseOutputName(id: string, title: string)
    requires '.' !in id && !EndsWith(title, Mp4)
    ensures ParseFileName(OutputName(id, title)) == Some(SongInfo(id, title, None))
    ensures ParseFileName(OutputName(id, title) + Mp4) == Some(SongInfo(id, title, None))
  {
    ParseDottedName(id, title);
    assert OutputName(id, title) + Mp4 == id + "." + (title + Mp4);
    ParseDottedName(id, title + Mp4);
    TrimEndMatchesOneMore(title, Mp4);
  }

  /**
   * `get_available_songs`: a missing directory gives no songs; otherwise every
   * regular file with a UTF-8 name containing `.` gives one song, in listing
   * order, and any I/O error aborts with an error.
   */
  method GetAvailableSongs(dir: Directory) returns (r: Result<seq<SongInfo>, string>)
    ensures dir.Missing? ==> r == Ok([])
    ensures dir.Unreadable? ==> r == Err(IoError)
    ensures dir.Listing? && EntryError in dir.entries ==> r == Err(IoError)
    ensures dir.Listing? && EntryError !in dir.entries ==> r == Ok(SongsOf(dir.entries))
  {
    if dir.Missing? {
      return Ok([]);
    }
    if dir.Unreadable? {
      return Err(IoError);
    }
    var entries := dir.entries;
    var songs: seq<SongInfo> := [];
    var i := 0;
    while i < |entries|
      invariant 0 <= i <= |entries|
      invariant EntryError !in entries[..i]
      invariant songs == SongsOf(entries[..i])
    {
      var entry := entries[i];
      if entry.EntryError? {
        assert entries[i] in entries;
        return Err(IoError);
      }
      assert entries[..i + 1][..i] == entries[..i];
      if entry.File? {
        var parsed := ParseFileName(entry.name);
        if parsed.Some? {
          songs := songs + [parsed.value];
        }
      }
      i := i + 1;
    }
    assert entries[..i] == entries;
    r := Ok(songs);
  }
}
