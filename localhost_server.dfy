/**
 * The request handling of the host's asset server
 * (src-tauri/src/localhost_server.rs): the path rewrite, the `/videos/<id>`
 * route with its id-to-file cache, the byte-range answer to a `Range`
 * header (a partial form of the byte ranges of section 2.1 of RFC 7233, with
 * the 206 status and `Content-Range` header of its sections 4.1 and 4.2),
 * and the two directory scans that fill the cache. The directory, the files'
 * bytes, the bundled assets and the downloader's outcome are inputs.
 */
module LocalhostServer {

  import opened Wrappers
  import opened Strings
  import opened FileSystem

  newtype byte = x: int | 0 <= x < 256

  /** The largest `usize` on the 64-bit targets the host is built for. */
  const UsizeMax: nat := 0xFFFF_FFFF_FFFF_FFFF

  const VideosPrefix := "/videos/"

  datatype HttpMethod = Get | Post | OtherMethod

  /** What the handler reads from a request: its method, URI path and `Range` header. */
  datatype Request = Request(verb: HttpMethod, path: string, range: Option<string>)

  datatype Body = Text(text: string) | Bytes(bytes: seq<byte>)

  /** What the handler does: answer, or panic (the worker thread dies and no answer is written). */
  datatype Reply =
    | Response(status: nat, headers: seq<(string, string)>, body: Body)
    | Panic

  /** A bundled front-end asset as the asset resolver returns it. */
  datatype Asset = Asset(mimeType: string, bytes: seq<byte>)

  // ---------------------------------------------------------------------------
  // Paths

  /** The request path `/` is served as `index.html`; every other path is used unchanged. */
  function NormalizePath(path: string): (p: string)
    ensures path == "/" ==> p == "index.html"
    ensures path != "/" ==> p == path
    ensures p != "/"
    ensures StartsWith(p, VideosPrefix) <==> StartsWith(path, VideosPrefix)
  {
    if path == "/" then
      assert "index.html"[0] != VideosPrefix[0];
      "index.html"
    else path
  }

  /** The video id of a `/videos/…` path: every leading `/videos/` removed. */
  function VideoId(path: string): (id: string)
    ensures !StartsWith(id, VideosPrefix) && EndsWith(path, id)
    ensures !StartsWith(path, VideosPrefix) ==> id == path
  {
    TrimStartMatches(path, VideosPrefix)
  }

  /** However many times `/videos/` is repeated in front of an id, the id is what remains. */
  lemma {:induction false} VideoIdOfRepeatedPrefix(k: nat, key: string)
    requires !StartsWith(key, VideosPrefix)
    ensures VideoId(Repeat(VideosPrefix, k) + key) == key
  {
    if k > 0 {
      assert Repeat(VideosPrefix, k) + key == VideosPrefix + (Repeat(VideosPrefix, k - 1) + key);
      TrimStartMatchesOneMore(Repeat(VideosPrefix, k - 1) + key, VideosPrefix);
      VideoIdOfRepeatedPrefix(k - 1, key);
    } else {
      assert Repeat(VideosPrefix, k) + key == key;
    }
  }

  /** The path the client's download request uses, `/videos/` + key, yields the key back. */
  lemma VideoIdOfVideoPath(key: string)
    requires !StartsWith(key, VideosPrefix)
    ensures VideoId(VideosPrefix + key) == key
  {
    assert (VideosPrefix + key)[|VideosPrefix|..] == key;
  }

  // ---------------------------------------------------------------------------
  // The Range header

  /**
   * Rust `str::parse::<usize>`: an optional `+`, then at least one decimal
   * digit, the value at most `UsizeMax`.
   */
  function ParseUsize(s: string): (r: Option<nat>)
    ensures r.Some? ==> r.value <= UsizeMax
    ensures s == "" || s == "+" ==> r.None?
    ensures (exists i :: 0 <= i < |s| && !IsDigit(s[i]) && !(i == 0 && s[0] == '+')) ==> r.None?
    ensures AllDigits(s) && DigitsValue(s) > UsizeMax ==> r.None?
  {
    var digits := if |s| > 0 && s[0] == '+' then s[1..] else s;
    assert |s| > 0 && s[0] == '+' ==> forall i :: 1 <= i < |s| ==> s[i] == digits[i - 1];
    if |digits| == 0 || !AllDigits(digits) then None
    else if DigitsValue(digits) > UsizeMax then None
    else Some(DigitsValue(digits))
  }

  /** Formatting a `usize` and parsing it back gives the same number. */
  lemma ParseUsizeDecimal(n: nat)
    requires n <= UsizeMax
    ensures ParseUsize(Decimal(n)) == Some(n)
  {
    DecimalRoundTrip(n);
  }

  /**
   * The first byte and the requested last byte of a `Range` header, or None
   * when the header does not have the one shape the server understands:
   * `bytes=` then exactly one `-` with a number before it. The number after it
   * counts as 0 when it is missing or unreadable.
   */
  function ParseRange(header: string): (r: Option<(nat, nat)>)
    ensures r.Some? ==> StartsWith(header, "bytes=") && multiset(header[6..])['-'] == 1
  {
    if !StartsWith(header, "bytes=") then None
    else
      var parts := Split(header[6..], '-');
      if |parts| != 2 then None
      else
        match ParseUsize(parts[0])
        case None => None
        case Some(start) =>
          var end := match ParseUsize(parts[1]) case Some(e) => e case None => 0;
          Some((start, end))
  }

  /** The last byte actually served: the whole rest of the file when the request says 0 or runs past the end. */
  function EffectiveEnd(end: nat, len: nat): (e: nat)
    requires len > 0
    ensures e < len
    ensures 0 < end < len ==> e == end
    ensures end == 0 || end >= len ==> e == len - 1
  {
    if end == 0 || end >= len then len - 1 else end
  }

  /** The `Content-Range` value `bytes S-E/L`. */
  function ContentRange(start: nat, end: nat, len: nat): string {
    "bytes " + Decimal(start) + "-" + Decimal(end) + "/" + Decimal(len)
  }

  const VideoHeaders: seq<(string, string)> := [("Content-Type", "video/mp4"), ("Accept-Ranges", "bytes")]

  /**
   * The answer for a video file's bytes `asset` and the request's `Range`
   * header. A header of the understood shape gets 206 with the bytes from the
   * start to the effective end inclusive. With an empty file, `len - 1`
   * underflows, and with a start more than one past the effective end the
   * slice is out of order: both panic. Any other header, or none, gets the
   * whole file with 200.
   */
  function VideoReply(range: Option<string>, asset: seq<byte>): (r: Reply)
    ensures (range.None? || ParseRange(range.value).None?) ==> r == Response(200, VideoHeaders, Bytes(asset))
    ensures range.Some? && ParseRange(range.value).Some? && |asset| == 0 ==> r == Panic
    ensures r.Response? && r.status == 206 ==>
              range.Some? && ParseRange(range.value).Some? && |asset| > 0 &&
              var start := ParseRange(range.value).value.0;
              var e := EffectiveEnd(ParseRange(range.value).value.1, |asset|);
              start <= e + 1 && r.body == Bytes(asset[start..e + 1]) && |r.body.bytes| == e + 1 - start &&
              r.headers == VideoHeaders + [("Content-Range", ContentRange(start, e, |asset|))]
    ensures r.Response? ==> r.status == 200 || r.status == 206
    ensures (range.Some? && ParseRange(range.value).Some? && |asset| > 0 &&
             ParseRange(range.value).value.0 > EffectiveEnd(ParseRange(range.value).value.1, |asset|) + 1) ==> r == Panic
    ensures r.Response? && r.status == 200 ==> range.None? || ParseRange(range.value).None?
  {
    var parsed := if range.Some? then ParseRange(range.value) else None;
    match parsed
    case None => Response(200, VideoHeaders, Bytes(asset))
    case Some((start, end)) =>
      assert range.Some? && ParseRange(range.value) == Some((start, end));
      if |asset| == 0 then Panic
      else
        var e := EffectiveEnd(end, |asset|);
        if start > e + 1 then Panic
        else Response(206, VideoHeaders + [("Content-Range", ContentRange(start, e, |asset|))], Bytes(asset[start..e + 1]))
  }

  /** The range text `S-E` a client writes after `bytes=`. */
  function RangeSpec(start: nat, end: nat): string {
    Decimal(start) + "-" + Decimal(end)
  }

  /** The header text a client sends for the byte range `start`–`end`. */
  function RangeHeader(start: nat, end: nat): string {
    "bytes=" + RangeSpec(start, end)
  }

  /** What follows the `bytes=` prefix. */
  lemma BytesTail(tail: string)
    ensures StartsWith("bytes=" + tail, "bytes=") && ("bytes=" + tail)[6..] == tail
  {
    assert ("bytes=" + tail)[..6] == "bytes=";
  }

  /** `bytes=X-Y` with dash-free pieces: X must parse as the start; Y is the end, or 0 when it does not parse. */
  lemma ParseRangeOfPieces(x: string, y: string, start: nat)
    requires '-' !in x && '-' !in y
    requires ParseUsize(x) == Some(start)
    ensures ParseRange("bytes=" + (x + "-" + y)) == Some((start, if ParseUsize(y).Some? then ParseUsize(y).value else 0))
  {
    BytesTail(x + "-" + y);
    assert x + "-" + y == x + ['-'] + y;
    SplitTwo(x, '-', y);
  }

  /** Decimal text holds no `-`. */
  lemma DecimalHasNoDash(n: nat)
    ensures '-' !in Decimal(n)
  {
    var d := Decimal(n);
    assert forall k :: 0 <= k < |d| ==> d[k] != '-';
  }

  /** A well-formed range header parses back into the two numbers it was written from. */
  lemma ParseRangeHeader(start: nat, end: nat)
    requires start <= UsizeMax && end <= UsizeMax
    ensures ParseRange(RangeHeader(start, end)) == Some((start, end))
  {
    DecimalHasNoDash(start);
    DecimalHasNoDash(end);
    ParseUsizeDecimal(start);
    ParseUsizeDecimal(end);
    ParseRangeOfPieces(Decimal(start), Decimal(end), start);
  }

  /** A header that parses to a start at most one past the effective end is answered with 206 and the bytes up to that end. */
  lemma ParsedRangeServed(h: string, start: nat, end: nat, asset: seq<byte>)
    requires ParseRange(h) == Some((start, end)) && |asset| > 0 && start <= EffectiveEnd(end, |asset|) + 1
    ensures VideoReply(Some(h), asset) ==
              Response(206, VideoHeaders + [("Content-Range", ContentRange(start, EffectiveEnd(end, |asset|), |asset|))],
                       Bytes(asset[start..EffectiveEnd(end, |asset|) + 1]))
  {
  }

  /** A header read as the closed range `S-E`, with `0 < E < len`, is answered with bytes `S..=E`. */
  lemma ParsedClosedRangeServed(h: string, start: nat, end: nat, asset: seq<byte>)
    requires ParseRange(h) == Some((start, end)) && start <= end < |asset| && 0 < end
    ensures VideoReply(Some(h), asset) ==
              Response(206, VideoHeaders + [("Content-Range", ContentRange(start, end, |asset|))], Bytes(asset[start..end + 1]))
  {
    assert EffectiveEnd(end, |asset|) == end;
    ParsedRangeServed(h, start, end, asset);
  }

  /**
   * A satisfiable closed range `S-E` with `0 < E < len` is answered with 206,
   * exactly the bytes `S..=E`, `E - S + 1` of them, and `Content-Range: bytes S-E/len`.
   */
  lemma ClosedRangeServed(start: nat, end: nat, asset: seq<byte>)
    requires start <= end < |asset| && 0 < end && |asset| <= UsizeMax
    ensures VideoReply(Some(RangeHeader(start, end)), asset) ==
              Response(206, VideoHeaders + [("Content-Range", ContentRange(start, end, |asset|))], Bytes(asset[start..end + 1]))
    ensures |asset[start..end + 1]| == end - start + 1
  {
    ParseRangeHeader(start, end);
    ParsedClosedRangeServed(RangeHeader(start, end), start, end, asset);
  }

  /** `bytes=S-` parses with the end missing, which counts as 0. */
  lemma ParseOpenRangeHeader(start: nat)
    requires start <= UsizeMax
    ensures ParseRange("bytes=" + (Decimal(start) + "-")) == Some((start, 0))
  {
    DecimalHasNoDash(start);
    ParseUsizeDecimal(start);
    assert ParseUsize("") == None;
    ParseRangeOfPieces(Decimal(start), "", start);
    assert Decimal(start) + "-" + "" == Decimal(start) + "-";
  }

  /** A header read as "from S to the end" is answered with everything from S on. */
  lemma OpenRangeServed(h: string, start: nat, asset: seq<byte>)
    requires ParseRange(h) == Some((start, 0)) && start < |asset|
    ensures VideoReply(Some(h), asset) ==
              Response(206, VideoHeaders + [("Content-Range", ContentRange(start, |asset| - 1, |asset|))], Bytes(asset[start..]))
  {
    ParsedRangeServed(h, start, 0, asset);
    assert asset[start..|asset| - 1 + 1] == asset[start..];
  }

  /** `bytes=S-` (no end) runs to the last byte of the file. */
  lemma OpenRangeRunsToEnd(start: nat, asset: seq<byte>)
    requires start < |asset| <= UsizeMax
    ensures VideoReply(Some("bytes=" + (Decimal(start) + "-")), asset) ==
              Response(206, VideoHeaders + [("Content-Range", ContentRange(start, |asset| - 1, |asset|))], Bytes(asset[start..]))
  {
    ParseOpenRangeHeader(start);
    OpenRangeServed("bytes=" + (Decimal(start) + "-"), start, asset);
  }

  /** Unlike section 2.1 of RFC 7233, `bytes=0-0` is read as "to the end" and serves the whole file as a 206. */
  lemma ZeroZeroServesWholeFile(asset: seq<byte>)
    requires 0 < |asset| <= UsizeMax
    ensures VideoReply(Some(RangeHeader(0, 0)), asset).status == 206
    ensures VideoReply(Some(RangeHeader(0, 0)), asset).body == Bytes(asset)
  {
    ParseRangeHeader(0, 0);
    assert EffectiveEnd(0, |asset|) == |asset| - 1;
    ParsedRangeServed(RangeHeader(0, 0), 0, 0, asset);
    assert asset[0..|asset| - 1 + 1] == asset;
  }

  /** `bytes=X-Y` whose start X does not parse as a `usize` is not understood and gets 200 with the whole file. */
  lemma UnparsableStartFallsBack(x: string, y: string, asset: seq<byte>)
    requires '-' !in x && '-' !in y && ParseUsize(x).None?
    ensures VideoReply(Some("bytes=" + (x + "-" + y)), asset) == Response(200, VideoHeaders, Bytes(asset))
  {
    BytesTail(x + "-" + y);
    assert x + "-" + y == x + ['-'] + y;
    SplitTwo(x, '-', y);
  }

  /** Letters are no `usize`. */
  lemma LettersDoNotParse()
    ensures ParseUsize("abc") == None
  {
    assert !IsDigit("abc"[0]);
  }

  /** For example `bytes=abc-5`: a start with a letter in it falls back to 200. */
  lemma LetterStartFallsBack(asset: seq<byte>)
    ensures VideoReply(Some("bytes=abc-5"), asset) == Response(200, VideoHeaders, Bytes(asset))
  {
    LettersDoNotParse();
    assert "bytes=abc-5" == "bytes=" + ("abc" + "-" + "5");
    assert "abc"[0] != '-' && "abc"[1] != '-' && "abc"[2] != '-' && "5"[0] != '-';
    UnparsableStartFallsBack("abc", "5", asset);
  }

  /** A suffix range `bytes=-N` has no start, so it falls back to 200 with the whole file. */
  lemma SuffixRangeFallsBack(n: nat, asset: seq<byte>)
    ensures VideoReply(Some("bytes=" + ("-" + Decimal(n))), asset) == Response(200, VideoHeaders, Bytes(asset))
  {
    BytesTail("-" + Decimal(n));
    assert "-" + Decimal(n) == "" + ['-'] + Decimal(n);
    DecimalHasNoDash(n);
    SplitTwo("", '-', Decimal(n));
    assert ParseUsize("") == None;
  }

  /** A header whose text after `bytes=` holds two or more `-` is not understood. */
  lemma ManyDashesNotParsed(tail: string)
    requires multiset(tail)['-'] >= 2
    ensures ParseRange("bytes=" + tail) == None
  {
    BytesTail(tail);
  }

  /** A request for two ranges has more than one `-` after `bytes=`, so it falls back to 200 with the whole file. */
  lemma MultiRangeFallsBack(a: nat, b: nat, c: nat, d: nat, asset: seq<byte>)
    ensures VideoReply(Some("bytes=" + (RangeSpec(a, b) + "," + RangeSpec(c, d))), asset)
            == Response(200, VideoHeaders, Bytes(asset))
  {
    var tail := RangeSpec(a, b) + "," + RangeSpec(c, d);
    assert multiset(RangeSpec(a, b))['-'] >= 1;
    assert multiset(RangeSpec(c, d))['-'] >= 1;
    ManyDashesNotParsed(tail);
  }

  /** An end at or past the last byte is read as "to the end": `bytes=S-E` with `E >= len` serves from S on. */
  lemma OverlongEndRunsToEnd(start: nat, end: nat, asset: seq<byte>)
    requires start < |asset| <= end <= UsizeMax
    ensures VideoReply(Some(RangeHeader(start, end)), asset) ==
              Response(206, VideoHeaders + [("Content-Range", ContentRange(start, |asset| - 1, |asset|))], Bytes(asset[start..]))
  {
    ParseRangeHeader(start, end);
    ParsedOverlongRangeServed(RangeHeader(start, end), start, end, asset);
  }

  /** A header read as a range whose end is at or past the last byte is answered with everything from the start on. */
  lemma ParsedOverlongRangeServed(h: string, start: nat, end: nat, asset: seq<byte>)
    requires ParseRange(h) == Some((start, end)) && start < |asset| <= end
    ensures VideoReply(Some(h), asset) ==
              Response(206, VideoHeaders + [("Content-Range", ContentRange(start, |asset| - 1, |asset|))], Bytes(asset[start..]))
  {
    ParsedRangeServed(h, start, end, asset);
    assert asset[start..|asset|] == asset[start..];
  }

  /** A start more than one past the end of a closed range cannot be served: the handler panics. */
  lemma ReversedRangePanics(start: nat, end: nat, asset: seq<byte>)
    requires 0 < end < |asset| && end + 1 < start <= UsizeMax
    ensures VideoReply(Some(RangeHeader(start, end)), asset) == Panic
  {
    ParseRangeHeader(start, end);
  }

  /** A start past the end of the file cannot be served: the handler panics instead of answering 416. */
  lemma StartPastEndPanics(start: nat, asset: seq<byte>)
    requires |asset| < start <= UsizeMax
    ensures VideoReply(Some(RangeHeader(start, 0)), asset) == Panic
  {
    ParseRangeHeader(start, 0);
  }

  // ---------------------------------------------------------------------------
  // The directory of downloaded videos

  /** The video id a file name is filed under: the text before its first `.`, or the whole name. */
  function KeyOf(name: string): (k: string)
    ensures '.' !in k && StartsWith(name, k)
    ensures '.' !in name ==> k == name
  {
    match FirstIndexOf(name, '.')
    case None => name
    case Some(i) => name[..i]
  }

  /** The map `populate_hash_map` builds from `entries`: each file's key to its path, a later file overwriting an earlier one. */
  function FileIndex(root: string, entries: seq<DirEntry>): map<string, string> {
    if |entries| == 0 then map[]
    else
      var index := FileIndex(root, entries[..|entries| - 1]);
      match entries[|entries| - 1]
      case File(name) => index[KeyOf(name) := JoinPath(root, name)]
      case _ => index
  }

  /** Exactly the keys of the listed files are indexed. */
  lemma {:induction false} FileIndexKeys(root: string, entries: seq<DirEntry>, k: string)
    ensures k in FileIndex(root, entries) <==>
            exists j :: 0 <= j < |entries| && entries[j].File? && KeyOf(entries[j].name) == k
    decreases |entries|
  {
    if |entries| > 0 {
      var init := entries[..|entries| - 1];
      FileIndexKeys(root, init, k);
      if k in FileIndex(root, init) {
        var j :| 0 <= j < |init| && init[j].File? && KeyOf(init[j].name) == k;
        assert entries[j] == init[j];
      }
      if exists j :: 0 <= j < |entries| && entries[j].File? && KeyOf(entries[j].name) == k {
        var j :| 0 <= j < |entries| && entries[j].File? && KeyOf(entries[j].name) == k;
        if j < |init| { assert init[j] == entries[j]; }
      }
    }
  }

  /** A key maps to the path of the LAST listed file with that key. */
  lemma {:induction false} FileIndexLastWins(root: string, entries: seq<DirEntry>, j: nat)
    requires j < |entries| && entries[j].File?
    requires forall m :: j < m < |entries| && entries[m].File? ==> KeyOf(entries[m].name) != KeyOf(entries[j].name)
    ensures KeyOf(entries[j].name) in FileIndex(root, entries)
    ensures FileIndex(root, entries)[KeyOf(entries[j].name)] == JoinPath(root, entries[j].name)
    decreases |entries|
  {
    if j < |entries| - 1 {
      var init := entries[..|entries| - 1];
      assert init[j] == entries[j];
      FileIndexLastWins(root, init, j);
    }
  }

  /**
   * `populate_hash_map`: a directory that cannot be read gives an empty map;
   * otherwise the map is the file index of the listing. An entry the
   * iterator reports as an error makes `expect` panic (None).
   */
  method PopulateHashMap(root: string, dir: Directory) returns (r: Option<map<string, string>>)
    ensures !dir.Listing? ==> r == Some(map[])
    ensures dir.Listing? && EntryError in dir.entries ==> r == None
    ensures dir.Listing? && EntryError !in dir.entries ==> r == Some(FileIndex(root, dir.entries))
  {
    if !dir.Listing? {
      return Some(map[]);
    }
    var entries := dir.entries;
    var index: map<string, string> := map[];
    var i := 0;
    while i < |entries|
      invariant 0 <= i <= |entries|
      invariant EntryError !in entries[..i]
      invariant index == FileIndex(root, entries[..i])
    {
      var entry := entries[i];
      if entry.EntryError? {
        assert entries[i] in entries;
        return None;
      }
      assert entries[..i + 1][..i] == entries[..i];
      if entry.File? {
        index := index[KeyOf(entry.name) := JoinPath(root, entry.name)];
      }
      i := i + 1;
    }
    assert entries[..i] == entries;
    r := Some(index);
  }

  /**
   * The first listed file whose name starts with `prefix`; the scan gives up
   * (None) at the first entry the iterator reports as an error.
   */
  function FirstWithPrefix(entries: seq<DirEntry>, prefix: string): (r: Option<string>)
    ensures r.Some? ==> File(r.value) in entries && StartsWith(r.value, prefix)
    ensures r.None? && EntryError !in entries ==>
              forall j :: 0 <= j < |entries| && entries[j].File? ==> !StartsWith(entries[j].name, prefix)
    ensures (exists j :: 0 <= j < |entries| && entries[j] == EntryError &&
                         forall m :: 0 <= m < j ==> !(entries[m].File? && StartsWith(entries[m].name, prefix))) ==> r.None?
  {
    if |entries| == 0 then None
    else
      match entries[0]
      case EntryError => None
      case File(name) =>
        if StartsWith(name, prefix) then Some(name)
        else
          var r := FirstWithPrefix(entries[1..], prefix);
          assert forall j :: 1 <= j < |entries| ==> entries[j] == entries[1..][j - 1];
          r
      case _ =>
        var r := FirstWithPrefix(entries[1..], prefix);
        assert forall j :: 1 <= j < |entries| ==> entries[j] == entries[1..][j - 1];
        r
  }

  /** One step of the search: an error stops it, a match ends it, anything else moves on. */
  lemma FirstWithPrefixStep(rest: seq<DirEntry>, prefix: string)
    requires |rest| > 0
    ensures FirstWithPrefix(rest, prefix) ==
              if rest[0].EntryError? then None
              else if rest[0].File? && StartsWith(rest[0].name, prefix) then Some(rest[0].name)
              else FirstWithPrefix(rest[1..], prefix)
  {
  }

  /** A listed file earlier than every other match, and after no error, is the one found. */
  lemma {:induction false} FirstWithPrefixIsFirst(entries: seq<DirEntry>, prefix: string, j: nat)
    requires j < |entries| && entries[j].File? && StartsWith(entries[j].name, prefix)
    requires forall m :: 0 <= m < j ==> entries[m] != EntryError && !(entries[m].File? && StartsWith(entries[m].name, prefix))
    ensures FirstWithPrefix(entries, prefix) == Some(entries[j].name)
    decreases j
  {
    if j > 0 {
      assert entries[0] != EntryError;
      FirstWithPrefixIsFirst(entries[1..], prefix, j - 1);
    }
  }

  /** `find_file_with_prefix`: the scan of the directory for the first name starting with `prefix`. */
  method FindFileWithPrefix(dir: Directory, prefix: string) returns (r: Option<string>)
    ensures !dir.Listing? ==> r == None
    ensures dir.Listing? ==> r == FirstWithPrefix(dir.entries, prefix)
  {
    if !dir.Listing? {
      return None;
    }
    var entries := dir.entries;
    var i := 0;
    while i < |entries|
      invariant 0 <= i <= |entries|
      invariant FirstWithPrefix(entries, prefix) == FirstWithPrefix(entries[i..], prefix)
    {
      FirstWithPrefixStep(entries[i..], prefix);
      assert entries[i..][0] == entries[i] && entries[i..][1..] == entries[i + 1..];
      var entry := entries[i];
      if entry.EntryError? {
        return None;
      }
      if entry.File? && StartsWith(entry.name, prefix) {
        return Some(entry.name);
      }
      i := i + 1;
    }
    r := None;
  }

  /** A name with a dot-free key before its first `.` is filed under that key. */
  lemma KeyOfDottedName(key: string, rest: string)
    requires '.' !in key
    ensures KeyOf(key + "." + rest) == key
  {
    assert key + "." + rest == key + ['.'] + rest;
    FirstIndexAfterPrefix(key, '.', rest);
    assert (key + ['.'] + rest)[..|key|] == key;
  }

  /**
   * A prefix match can pick a file filed under a longer id: when the file of
   * `id + extra` is listed first, a request for `id` is given that file.
   */
  lemma PrefixMatchCanPickLongerKey(id: string, extra: string, rest: string, later: seq<DirEntry>)
    requires '.' !in id && '.' !in extra && extra != ""
    ensures FirstWithPrefix([File(id + extra + "." + rest)] + later, id) == Some(id + extra + "." + rest)
    ensures KeyOf(id + extra + "." + rest) == id + extra != id
  {
    var name := id + extra + "." + rest;
    assert name[..|id|] == id;
    FirstWithPrefixIsFirst([File(name)] + later, id, 0);
    assert name == (id + extra) + "." + rest;
    KeyOfDottedName(id + extra, rest);
  }

  // ---------------------------------------------------------------------------
  // The server

  const VideoNotFound := "Video not found"
  const NotUnderstood := "Server didn't understand what to process"
  const CorsHeaders: seq<(string, string)> :=
    [("Content-Type", "text/plain"), ("Access-Control-Allow-Origin", "*"),
     ("Access-Control-Allow-Methods", "POST"), ("Access-Control-Allow-Headers", "Content-Type")]

  /** The server's state: the downloads directory and the id-to-file cache behind the mutex. */
  class LocalhostServer {
    const downloadsDir: string
    var videoFileMap: map<string, string>

    constructor (downloadsDir: string, videoFileMap: map<string, string>)
      ensures this.downloadsDir == downloadsDir && this.videoFileMap == videoFileMap
    {
      this.downloadsDir := downloadsDir;
      this.videoFileMap := videoFileMap;
    }

    /**
     * The cache lookup of the `/videos/<id>` route: a cached id is answered
     * from the map without scanning; otherwise the first file whose name
     * starts with the id is returned and cached. The map only grows and no
     * cached entry changes.
     */
    method LookupVideoFile(videoId: string, dir: Directory) returns (r: Option<string>)
      modifies this
      ensures videoId in old(videoFileMap) ==> r == Some(old(videoFileMap)[videoId]) && videoFileMap == old(videoFileMap)
      ensures videoId !in old(videoFileMap) ==>
                r == (if dir.Listing? then FirstWithPrefix(dir.entries, videoId) else None) &&
                videoFileMap == (if r.Some? then old(videoFileMap)[videoId := r.value] else old(videoFileMap))
      ensures forall k :: k in old(videoFileMap) ==> k in videoFileMap && videoFileMap[k] == old(videoFileMap)[k]
    {
      if videoId in videoFileMap {
        return Some(videoFileMap[videoId]);
      }
      r := FindFileWithPrefix(dir, videoId);
      if r.Some? {
        videoFileMap := videoFileMap[videoId := r.value];
      }
    }

    /**
     * The request handler. `dir` is the downloads directory as it is now,
     * `files` the readable files by path, `assets` the bundled front end, and
     * `fetched` what downloading the requested id would give (a title or an
     * error message); only a POST to `/videos/<id>` uses it.
     */
    method Serve(req: Request, dir: Directory, files: map<string, seq<byte>>,
                 assets: map<string, Asset>, fetched: Result<string, string>) returns (reply: Reply)
      modifies this
      ensures !StartsWith(req.path, VideosPrefix) ==>
                videoFileMap == old(videoFileMap) &&
                var path := NormalizePath(req.path);
                reply == if path in assets then Response(200, [("Content-Type", assets[path].mimeType)], Bytes(assets[path].bytes))
                         else Response(500, [("Content-Type", "text/plain")], Text(NotUnderstood))
      ensures StartsWith(req.path, VideosPrefix) && req.verb == Post ==>
                videoFileMap == old(videoFileMap) &&
                reply == match fetched
                         case Ok(title) => Response(200, CorsHeaders, Text(title))
                         case Err(e) => Response(500, CorsHeaders, Text("Error starting video download: " + e))
      ensures StartsWith(req.path, VideosPrefix) && req.verb != Post ==>
                var id := VideoId(req.path);
                var found := if id in old(videoFileMap) then Some(old(videoFileMap)[id])
                             else if dir.Listing? then FirstWithPrefix(dir.entries, id) else None;
                var filePath := if found.Some? then JoinPath(downloadsDir, found.value) else "";
                reply == (if found.Some? && filePath in files then VideoReply(req.range, files[filePath])
                          else Response(404, [("Content-Type", "text/plain")], Text(VideoNotFound))) &&
                videoFileMap == (if id !in old(videoFileMap) && found.Some? then old(videoFileMap)[id := found.value]
                                 else old(videoFileMap))
      ensures forall k :: k in old(videoFileMap) ==> k in videoFileMap && videoFileMap[k] == old(videoFileMap)[k]
    {
      var path := NormalizePath(req.path);
      if StartsWith(path, VideosPrefix) {
        var videoId := VideoId(path);
        if req.verb == Post {
          match fetched
          case Ok(title) =>
            return Response(200, CorsHeaders, Text(title));
          case Err(e) =>
            return Response(500, CorsHeaders, Text("Error starting video download: " + e));
        }
        var fileName := LookupVideoFile(videoId, dir);
        if fileName.Some? {
          var filePath := JoinPath(downloadsDir, fileName.value);
          if filePath in files {
            return VideoReply(req.range, files[filePath]);
          }
        }
        return Response(404, [("Content-Type", "text/plain")], Text(VideoNotFound));
      }
      if path in assets {
        return Response(200, [("Content-Type", assets[path].mimeType)], Bytes(assets[path].bytes));
      }
      reply := Response(500, [("Content-Type", "text/plain")], Text(NotUnderstood));
    }
  }

  /**
   * The server thread's start: the cache is filled by `populate_hash_map`
   * before the server binds; a panic there (None) leaves no server.
   */
  method StartServer(downloadsDir: string, dir: Directory) returns (server: Option<LocalhostServer>)
    ensures server.Some? ==> fresh(server.value) && server.value.downloadsDir == downloadsDir
    ensures !dir.Listing? ==> server.Some? && server.value.videoFileMap == map[]
    ensures dir.Listing? && EntryError !in dir.entries ==>
              server.Some? && server.value.videoFileMap == FileIndex(downloadsDir, dir.entries)
    ensures dir.Listing? && EntryError in dir.entries ==> server.None?
  {
    var index := PopulateHashMap(downloadsDir, dir);
    if index.None? {
      return None;
    }
    var s := new LocalhostServer(downloadsDir, index.value);
    server := Some(s);
  }
}
