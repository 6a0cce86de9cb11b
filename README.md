# Karaoke queue and video host — a Dafny model

This project models the logic at the core of a karaoke application. The
application has a React/Redux front end whose shared song queue lives in a
Yjs document, and a Rust (Tauri) host that serves downloaded YouTube videos
over a small localhost HTTP server. The model covers these parts:

- **Queue controller** (`karaoke/thunks.ts`). The shared `song-queue` array is
  a class `YArray` holding a sequence. The thunks are methods of
  `KaraokeThunks.KaraokeThunks`, whose `doc` field may be null. Every operation
  rejects with "Yjs document not initialized" when the document is missing.
  Each operation is proved against the specification functions of `QueueSpec`.
  The add operation rejects duplicates, and the duplicate-free-keys invariant
  is proved for any sequence of operations that starts from an empty queue.
- **Redux mirror reducers** (`karaoke/slice.ts`). A class `KaraokeStore` with
  the three state fields. The reducers follow JavaScript `splice` exactly,
  including negative and out-of-range indices. Promote and demote are proved
  equal to the same specification functions the thunks use.
- **Video route of the asset server** (`localhost_server.rs`). This covers
  - path normalisation and `/videos/` id extraction;
  - the `Range` header parser and slicer, with its deviations from the byte
    ranges of section 2.1 of RFC 7233 (`bytes=0-0` returns the whole file,
    suffix and multi-range requests get a 200, an unsatisfiable range panics
    instead of answering 416);
  - `populate_hash_map`, `find_file_with_prefix` and the id→file cache that only
    grows;
  - the 404 and 500 fall-backs.

  A panic of the Rust code is a `Panic` reply.
- **Catalogue parser** (`fetch_youtube.rs`). `get_available_songs` over an
  abstract directory listing, and the `{id}.{title}` output-name template. A
  round trip links the two.
- **Core slice** (`core/slice.ts`). The initial `hostingAddress` (`:1420` becomes
  `:9527`) and the single-field setter reducers of a `CoreStore` class.
- **WebSocket address** (`utils.ts`). `getWebSocketURL` runs as a method over a
  `URL` record, with the port and protocol setters of the WHATWG URL standard.
  A lemma proves that for a numeric page port the relay port is the hosting
  address's port plus one.
- **Karaoke screen and navigation** (`karaoke.tsx`, `nav-tabs.tsx`). The song
  search predicate, the download gating and callout choice, the queue-position
  label, and the selected tab id.

Shared modules: `Wrappers` (Option, Result); `Strings`, which holds prefixes and
suffixes, decimal text and Rust's `trim_*_matches` / `split`; `Songs`, which
holds `SongInfo`, `findIndex`/`find` by key and distinct keys; and `FileSystem`,
an abstract directory listing.

The model takes several inputs as parameters:
- directory listings;
- file contents and the assets of the bundled front end;
- the outcome of a YouTube download;
- `window.location` values;
- the results of `formatSongName` and `getYoutubeIdFromUrl`.

## Model

| member | source | states |
|---|---|---|
| Songs.FindIndexByKey | src/components/karaoke.tsx:425-428 | `findIndex` by key: -1 iff no entry has the key, otherwise the first position holding it |
| Songs.FindByKey | src/state/redux-slices/karaoke/thunks.ts:159-161 | `find` by key: some entry iff the key occurs, and then the entry at the first position holding the key |
| Songs.FoundIndexIsUnique | src/components/karaoke.tsx:425-428 | in a duplicate-free list, the position found for a key is the only one holding it |
| QueueSpec.SwapAdjacent | src/state/redux-slices/karaoke/thunks.ts:123-125 | the two neighbours change places, all other positions and the multiset of entries are kept |
| QueueSpec.Promote | src/state/redux-slices/karaoke/thunks.ts:139-144 | for 0 < i < len, positions i-1 and i are swapped; otherwise the queue is unchanged; length and multiset are kept |
| QueueSpec.Demote | src/state/redux-slices/karaoke/thunks.ts:120-125 | for 0 ≤ i < len-1, positions i and i+1 are swapped; otherwise unchanged (so demoting the last entry does nothing); length and multiset are kept |
| QueueSpec.RemoveAt | src/state/redux-slices/karaoke/thunks.ts:180-183 | for 0 ≤ i < len, exactly entry i is removed and the rest keep their order; otherwise unchanged |
| QueueSpec.DemoteThenPromote | src/state/redux-slices/karaoke/thunks.ts:120-144 | demoting i and then promoting i+1 restores the original queue |
| QueueSpec.PromoteIsDemoteOfPredecessor | src/state/redux-slices/karaoke/thunks.ts:120-144 | promoting i is the same as demoting i-1 |
| QueueSpec.SwapAdjacentKeepsDistinct | src/state/redux-slices/karaoke/thunks.ts:123-125 | swapping neighbours keeps the keys pairwise distinct |
| QueueSpec.PromoteKeepsDistinct | src/state/redux-slices/karaoke/thunks.ts:139-144 | promote keeps the keys pairwise distinct |
| QueueSpec.DemoteKeepsDistinct | src/state/redux-slices/karaoke/thunks.ts:120-125 | demote keeps the keys pairwise distinct |
| QueueSpec.RemoveAtKeepsDistinct | src/state/redux-slices/karaoke/thunks.ts:180-183 | removal keeps the keys pairwise distinct |
| QueueSpec.AppendNewKeyKeepsDistinct | src/state/redux-slices/karaoke/thunks.ts:159-166 | appending a song whose key is absent keeps the keys pairwise distinct |
| QueueSpec.ApplyOpKeepsDistinct | src/state/redux-slices/karaoke/thunks.ts:120-183 | each of add (duplicates rejected), remove, promote and demote keeps the keys distinct |
| QueueSpec.ApplyOpsKeepsDistinct | src/state/redux-slices/karaoke/thunks.ts:120-183 | any sequence of queue operations keeps distinct keys distinct |
| QueueSpec.EmptyQueueStaysDistinct | src/state/redux-slices/karaoke/thunks.ts:120-183 | starting from an empty queue, every sequence of operations leaves the keys pairwise distinct |
| KaraokeThunks.KaraokeThunks.DemoteSong | src/state/redux-slices/karaoke/thunks.ts:112-127 | a null document rejects with "Yjs document not initialized"; otherwise the queue becomes `Demote(old queue, index)` and distinct keys stay distinct |
| KaraokeThunks.KaraokeThunks.PromoteSong | src/state/redux-slices/karaoke/thunks.ts:131-146 | a null document rejects; otherwise the queue becomes `Promote(old queue, index)` and distinct keys stay distinct |
| KaraokeThunks.KaraokeThunks.AddToQueue | src/state/redux-slices/karaoke/thunks.ts:150-168 | a null document rejects; a key already queued rejects with "DUPLICATE_SONG" and leaves the queue alone; otherwise exactly the song is appended; distinct keys stay distinct |
| KaraokeThunks.KaraokeThunks.RemoveFromQueue | src/state/redux-slices/karaoke/thunks.ts:172-185 | a null document rejects; otherwise the queue becomes `RemoveAt(old queue, index)` and distinct keys stay distinct |
| KaraokeThunks.KaraokeThunks.SetTopOfQueueAsNextSong | src/state/redux-slices/karaoke/thunks.ts:189-203 | on a non-empty queue the old head becomes currently playing and the queue becomes the old tail; on an empty queue neither changes; the store's queue and catalogue are untouched |
| KaraokeThunks.KaraokeThunks.DownloadSong | src/state/redux-slices/karaoke/thunks.ts:207-234 | a null document rejects; a key already in the library rejects before any request; a missing hosting address returns (does not throw) "Hosting address not set"; a POST to `<address>/videos/<key>` is issued exactly when all checks pass |
| KaraokeThunks.KaraokeThunks.constructor | src/state/redux-slices/karaoke/thunks.ts:116-118 | before initialisation there is no document |
| KaraokeThunks.YArray.Length | src/state/redux-slices/karaoke/thunks.ts:120 | `length` is the number of entries this replica holds |
| KaraokeThunks.YArray.Get | src/state/redux-slices/karaoke/thunks.ts:123 | `get(index)` gives the entry inside the array and nothing (`undefined`) outside it |
| KaraokeThunks.YArray.Delete | src/state/redux-slices/karaoke/thunks.ts:124 | `delete(index, count)` leaves the entries before `index` and from `index + count` on, in order |
| KaraokeThunks.YArray.Insert | src/state/redux-slices/karaoke/thunks.ts:125 | `insert(index, content)` puts `content` between the first `index` entries and the rest |
| KaraokeThunks.YArray.ToArray | src/state/redux-slices/karaoke/thunks.ts:160 | `toArray()` gives the entries in order |
| KaraokeThunks.YArray.Push | src/state/redux-slices/karaoke/thunks.ts:166 | `push(content)` appends `content` at the end |
| KaraokeSlice.SpliceCanBeUndone | src/state/redux-slices/karaoke/slice.ts:40-59 | `Array.prototype.splice` puts the items at the (clamped) start, removes at most `deleteCount` entries, and putting the removed entries back where the items are restores the array |
| KaraokeSlice.SpliceKeepsEntries | src/state/redux-slices/karaoke/slice.ts:40-59 | `splice` neither loses nor invents entries: kept plus removed is the old array plus the items, as multisets |
| KaraokeSlice.SpliceOneIsRemoveAt | src/state/redux-slices/karaoke/slice.ts:40-42 | `splice(i, 1)` removes the entry at the clamped start; for i ≥ 0 it is `RemoveAt(q, i)`; a negative i on a non-empty queue still removes one entry |
| KaraokeSlice.KaraokeStore.constructor | src/state/redux-slices/karaoke/slice.ts:21-25 | initial state: nothing playing, empty queue, empty catalogue |
| KaraokeSlice.KaraokeStore.SetCurrentlyPlaying | src/state/redux-slices/karaoke/slice.ts:31-36 | only `currentlyPlaying` changes |
| KaraokeSlice.KaraokeStore.AddToQueue | src/state/redux-slices/karaoke/slice.ts:37-39 | always appends the song (length grows by one), with no duplicate check; other fields are kept |
| KaraokeSlice.KaraokeStore.RemoveFromQueue | src/state/redux-slices/karaoke/slice.ts:40-42 | the queue becomes `RemoveAt(old, SpliceStart(len, index))`; for index ≥ 0 exactly `RemoveAt(old, index)` |
| KaraokeSlice.KaraokeStore.SetQueue | src/state/redux-slices/karaoke/slice.ts:43-45 | the queue is replaced wholesale; other fields are kept |
| KaraokeSlice.KaraokeStore.PromoteSong | src/state/redux-slices/karaoke/slice.ts:46-52 | the two splices give `Promote(old queue, index)`, the same function the thunk is proved against |
| KaraokeSlice.KaraokeStore.DemoteSong | src/state/redux-slices/karaoke/slice.ts:53-59 | the two splices give `Demote(old queue, index)`, the same function the thunk is proved against |
| KaraokeSlice.KaraokeStore.SetAllSongs | src/state/redux-slices/karaoke/slice.ts:60-62 | the catalogue is replaced wholesale; other fields are kept |
| KaraokeSlice.ReducerAppendCanDuplicate | src/state/redux-slices/karaoke/slice.ts:37-39 | unlike the thunk, the reducer's append can break distinct keys when the key is already queued |
| LocalhostServer.NormalizePath | src-tauri/src/localhost_server.rs:58-65 | `/` becomes `index.html`, every other path is unchanged, and the `/videos/` test is unaffected |
| LocalhostServer.VideoId | src-tauri/src/localhost_server.rs:69-70 | the id is a suffix of the path with no leading `/videos/` left, and a path not starting with `/videos/` is its own id; with `TrimStartMatchesOneMore` every leading repetition is stripped |
| LocalhostServer.VideoIdOfVideoPath | src-tauri/src/localhost_server.rs:69-70 | `/videos/` followed by an id gives back that id |
| LocalhostServer.VideoIdOfRepeatedPrefix | src-tauri/src/localhost_server.rs:69-70 | `/videos/` repeated any number of times in front of an id gives back that id, as `trim_start_matches` strips every leading copy |
| LocalhostServer.ParseUsize | src-tauri/src/localhost_server.rs:154-158 | a parsed `usize` is at most 2^64-1; the empty text, a lone `+`, any character other than a digit (past one leading `+`) and an all-digit value above 2^64-1 are rejected |
| LocalhostServer.ParseUsizeDecimal | src-tauri/src/localhost_server.rs:154-158 | the decimal text of any `usize` parses back to it |
| LocalhostServer.ParseRange | src-tauri/src/localhost_server.rs:147-159 | a parsed range comes from a `bytes=` header with exactly one `-`; with `UnparsableStartFallsBack`, a start that does not parse gives no range |
| LocalhostServer.EffectiveEnd | src-tauri/src/localhost_server.rs:160-165 | the effective end is below the length; it is the requested end when that is in (0, len), and the last byte when the request says 0 or runs past the end |
| LocalhostServer.VideoReply | src-tauri/src/localhost_server.rs:144-194 | no or unparsable range gives 200 with the whole asset; a range on an empty asset panics, and so does a start more than one past E' on any asset; a 200 comes only from a missing or unparsable range; a 206 carries `asset[S..=E']` and `Content-Range: bytes S-E'/len`; the status is only ever 200 or 206 |
| LocalhostServer.ParseRangeHeader | src-tauri/src/localhost_server.rs:147-159 | `bytes=S-E` parses to (S, E) |
| LocalhostServer.ClosedRangeServed | src-tauri/src/localhost_server.rs:145-182 | for 0 < E < len and S ≤ E the reply is 206 with body `asset[S..E+1]` of length E-S+1 |
| LocalhostServer.ParseOpenRangeHeader | src-tauri/src/localhost_server.rs:154-159 | `bytes=S-` parses with a missing end read as 0 |
| LocalhostServer.OpenRangeRunsToEnd | src-tauri/src/localhost_server.rs:154-166 | `bytes=S-` serves from S to the last byte |
| LocalhostServer.OverlongEndRunsToEnd | src-tauri/src/localhost_server.rs:160-166 | `bytes=S-E` with E at or past the length serves from S to the last byte, with `Content-Range: bytes S-(len-1)/len` |
| LocalhostServer.ParsedRangeServed | src-tauri/src/localhost_server.rs:160-182 | any header that parses to (S, E), on a non-empty asset with S ≤ E'+1, is answered with 206, `asset[S..=E']` and its Content-Range |
| LocalhostServer.ParsedClosedRangeServed | src-tauri/src/localhost_server.rs:160-182 | a header read as (S, E) with 0 < E < len and S ≤ E gets exactly the bytes S..=E |
| LocalhostServer.ParsedOverlongRangeServed | src-tauri/src/localhost_server.rs:160-182 | a header read as (S, E) with S < len ≤ E gets everything from S on |
| LocalhostServer.OpenRangeServed | src-tauri/src/localhost_server.rs:160-182 | a header read as (S, 0) with S < len gets everything from S on |
| LocalhostServer.ZeroZeroServesWholeFile | src-tauri/src/localhost_server.rs:160-166 | `bytes=0-0` is answered with 206 and the whole file, not the first byte |
| LocalhostServer.SuffixRangeFallsBack | src-tauri/src/localhost_server.rs:151-194 | a suffix range `bytes=-N` gets the plain 200 with the whole asset |
| LocalhostServer.UnparsableStartFallsBack | src-tauri/src/localhost_server.rs:151-194 | `bytes=X-Y` whose start X is not a `usize` gets the plain 200 with the whole asset |
| LocalhostServer.LetterStartFallsBack | src-tauri/src/localhost_server.rs:151-194 | `bytes=abc-5` gets the plain 200 with the whole asset |
| LocalhostServer.MultiRangeFallsBack | src-tauri/src/localhost_server.rs:151-194 | a multi-range request gets the plain 200 with the whole asset |
| LocalhostServer.StartPastEndPanics | src-tauri/src/localhost_server.rs:160-166 | a start more than one past the last byte panics instead of answering 416 |
| LocalhostServer.ReversedRangePanics | src-tauri/src/localhost_server.rs:160-166 | `bytes=S-E` with 0 < E < len and S > E + 1 (for example `bytes=5-2` on 10 bytes) panics at the inclusive slice |
| LocalhostServer.KeyOf | src-tauri/src/localhost_server.rs:246 | the key is the dot-free prefix before the first `.`, or the whole name when it has no dot |
| LocalhostServer.FileIndexKeys | src-tauri/src/localhost_server.rs:240-249 | the map's keys are exactly the keys of the listed files |
| LocalhostServer.FileIndexLastWins | src-tauri/src/localhost_server.rs:246-248 | a later file with the same key overwrites an earlier one; the last one's path is stored |
| LocalhostServer.PopulateHashMap | src-tauri/src/localhost_server.rs:237-255 | an unreadable or missing directory gives an empty map; a failing entry panics (`expect`); otherwise the map is `FileIndex` of the listing |
| LocalhostServer.FirstWithPrefix | src-tauri/src/localhost_server.rs:258-273 | a result is a listed file starting with the prefix; no result on a clean listing means no file starts with it; an entry error before the first match gives no result, as `entry.ok()?` returns early |
| LocalhostServer.FirstWithPrefixIsFirst | src-tauri/src/localhost_server.rs:259-270 | the first matching file in listing order is returned |
| LocalhostServer.FindFileWithPrefix | src-tauri/src/localhost_server.rs:258-273 | the loop returns `FirstWithPrefix` of the listing, and None when the directory cannot be read |
| LocalhostServer.PrefixMatchCanPickLongerKey | src-tauri/src/localhost_server.rs:265 | a request for a dot-free id can be served the file of a longer key `id + extra` when that file is listed first: the first name starting with the id is taken, and its key differs from the id |
| LocalhostServer.LocalhostServer.constructor | src-tauri/src/localhost_server.rs:53 | the server starts with the given downloads directory and map |
| LocalhostServer.LocalhostServer.LookupVideoFile | src-tauri/src/localhost_server.rs:126-138 | a cached id is answered from the map without searching; otherwise the first prefix match is returned and inserted; the map only grows |
| LocalhostServer.LocalhostServer.Serve | src-tauri/src/localhost_server.rs:57-225 | non-video paths get the asset or 500 "Server didn't understand what to process"; POST to a video path gives 200 with the title or 500 with the error, with CORS headers; GET gives the range reply or 404 "Video not found", and the map gains exactly the id and the file found when the id was not cached, and is otherwise unchanged |
| LocalhostServer.StartServer | src-tauri/src/localhost_server.rs:46-53 | the server starts with `populate_hash_map`'s map, or does not start when that panics |
| FileSystem.JoinPath | src-tauri/src/localhost_server.rs:141 | `Path::join` with an absolute name gives that name, whatever the directory |
| FetchYoutube.ParseFileName | src-tauri/src/fetch_youtube.rs:146-157 | a name gives a song iff it contains `.`; the key is the dot-free text before the first `.`, and the title has no trailing `.mp4` |
| FetchYoutube.SongsOf | src-tauri/src/fetch_youtube.rs:142-160 | at most one song per entry, no key contains `.`, no title ends in `.mp4`; with `SongsOfOne` and `SongsOfAppend` the songs are pinned entry by entry |
| FetchYoutube.SongsOfAppend | src-tauri/src/fetch_youtube.rs:142-160 | the listing is processed in order: the songs of a concatenation are the concatenation of the songs |
| FetchYoutube.SongsOfOne | src-tauri/src/fetch_youtube.rs:142-160 | one entry gives the song its name reads as when it is a file whose name has a `.`, and nothing otherwise (no dot, not a file, an error) |
| FetchYoutube.DownloadedFileGivesSong | src-tauri/src/fetch_youtube.rs:142-160 | a file `key.title.mp4` anywhere in a listing contributes exactly `SongInfo(key, title)` at its place |
| FetchYoutube.ParseDottedName | src-tauri/src/fetch_youtube.rs:150-152 | `key.rest` with a dot-free key parses to (key, rest without trailing `.mp4`) |
| FetchYoutube.ParseOutputName | src-tauri/src/fetch_youtube.rs:148-156 | the downloader's `{id}.{title}` name, with or without the `.mp4` remux extension, parses back to (id, title) |
| FetchYoutube.GetAvailableSongs | src-tauri/src/fetch_youtube.rs:133-163 | a missing directory gives Ok(empty); an unreadable directory or entry gives an error; otherwise Ok(`SongsOf` the listing) |
| Strings.TrimEndMatches | src-tauri/src/fetch_youtube.rs:152 | every trailing copy of the pattern is removed: the result does not end with it and is a prefix of the input |
| Strings.TrimEndMatchesIdempotent | src-tauri/src/fetch_youtube.rs:152 | trimming twice is trimming once |
| Strings.TrimEndMatchesOneMore | src-tauri/src/fetch_youtube.rs:152 | one more copy of the pattern at the end trims to the same result |
| Strings.TrimStartMatches | src-tauri/src/localhost_server.rs:70 | every leading copy of the pattern is removed: the result is a suffix that does not start with it, a text not starting with it is kept, and (`TrimStartMatchesOneMore`) one more leading copy trims to the same result |
| Strings.TrimStartMatchesOneMore | src-tauri/src/localhost_server.rs:70 | one more leading copy of the pattern trims to the same result |
| Strings.Split | src-tauri/src/localhost_server.rs:151-152 | `split` gives one more part than there are separators, and no part contains one |
| Strings.SplitTwo | src-tauri/src/localhost_server.rs:151-153 | text with one separator splits into the two sides |
| Strings.Decimal | src-tauri/src/localhost_server.rs:174-179 | decimal text is non-empty digits with no leading zero |
| Strings.DecimalRoundTrip | src-tauri/src/localhost_server.rs:154-158 | reading the decimal text of n gives n |
| Strings.DecimalInjective | src/components/karaoke.tsx:454-459 | different numbers have different decimal texts |
| Strings.FirstIndexOf | src-tauri/src/fetch_youtube.rs:150 | the first position of a character, or none when it does not occur |
| Strings.FirstIndexAfterPrefix | src-tauri/src/fetch_youtube.rs:150 | a character absent from `a` is first found right after `a` |
| CoreSlice.FirstOccurrence | src/state/redux-slices/core/slice.ts:41 | the first position where the pattern occurs, or none |
| CoreSlice.ReplaceFirst | src/state/redux-slices/core/slice.ts:41 | string `replace` with a string pattern rewrites only the first occurrence |
| CoreSlice.InitialHostingAddress | src/state/redux-slices/core/slice.ts:37-45 | an origin not ending in `:1420` is kept; one that does gets its first `:1420` replaced by `:9527`; the length never changes |
| CoreSlice.FirstOccurrenceIs | src/state/redux-slices/core/slice.ts:41 | an occurrence with none before it is the first occurrence |
| CoreSlice.DevOriginGetsHostPort | src/state/redux-slices/core/slice.ts:40-42 | an origin whose only `:1420` is its end gets `:9527` there and keeps the scheme and host text |
| CoreSlice.EarlierDevPortIsRewritten | src/state/redux-slices/core/slice.ts:40-42 | when `:1420` also occurs earlier (an IPv6 host such as `[::1420]`), the earlier occurrence is rewritten and the final `:1420` stays |
| CoreSlice.CoreStore.constructor | src/state/redux-slices/core/slice.ts:33-55 | initial state: runtime from the Tauri flag, derived hosting address, "mcleod", window 2048, thresholds 0.5 and 0.015, pitch (0, 0), no device, no cache key, not in error |
| CoreSlice.CoreStore.SetPitchDetectionAlgorithm | src/state/redux-slices/core/slice.ts:61-66 | only the algorithm changes |
| CoreSlice.CoreStore.SetWindowSize | src/state/redux-slices/core/slice.ts:67-69 | only the window size changes |
| CoreSlice.CoreStore.SetClarityThreshold | src/state/redux-slices/core/slice.ts:70-72 | only the clarity threshold changes |
| CoreSlice.CoreStore.SetPowerThreshold | src/state/redux-slices/core/slice.ts:73-75 | only the power threshold changes |
| CoreSlice.CoreStore.SetCurrentPitch | src/state/redux-slices/core/slice.ts:76-81 | only the current pitch changes |
| CoreSlice.CoreStore.SetActiveAudioDevice | src/state/redux-slices/core/slice.ts:82-84 | only the audio device changes (it may become null) |
| CoreSlice.CoreStore.SetWorkerCacheKey | src/state/redux-slices/core/slice.ts:86-88 | only the worker cache key changes |
| CoreSlice.CoreStore.SetInErrorState | src/state/redux-slices/core/slice.ts:89-91 | only the error flag changes |
| CoreSlice.CoreStore.SetHostingAddress | src/state/redux-slices/core/slice.ts:92-97 | only the hosting address changes, and it may become undefined |
| WebSocketUrl.PortText | src/utils.ts:7 | the `port` getter is "" or decimal digits |
| WebSocketUrl.LeadingDigits | src/utils.ts:7 | the leading digits of a text, non-empty when it starts with a digit |
| WebSocketUrl.ParsePortText | src/utils.ts:7 | `parseInt` of the port text gives the port back, or NaN when there is none |
| WebSocketUrl.SetPortDecimal | src/utils.ts:7-10 | setting a number's text stores that number, ignores it above 65535, and drops it when it is the protocol's default |
| WebSocketUrl.PortTextIs1421 | src/utils.ts:9 | the port reads "1421" exactly when it is 1421 |
| WebSocketUrl.BumpStep | src/utils.ts:6-7 | after the bump the port is one more than the page's, kept when that leaves the range, dropped when there is none or when it becomes 80 |
| WebSocketUrl.SwapStep | src/utils.ts:9-11 | port 1421 is replaced by 9528 and any other port is kept |
| WebSocketUrl.BumpedPort | src/utils.ts:6-11 | after both port assignments the URL is http on the same host with `SocketPort(page port)` |
| WebSocketUrl.SocketPortIsNotDefault | src/utils.ts:7-11 | the relay port after the two port assignments is never 80, so the protocol switch cannot drop it |
| WebSocketUrl.ProtocolStep | src/utils.ts:12 | setting `ws:` on an http URL whose port is not 80 keeps the host and the port |
| WebSocketUrl.HrefOfWs | src/utils.ts:13 | a `ws:` URL's text is `ws://` + host name + `:port` when there is a port + `/` |
| WebSocketUrl.GetWebSocketUrl | src/utils.ts:4-14 | the result is `ws://` + the page's host name + the `SocketPort` of the page's port + `/`; the protocol is always `ws:` because the `https:` branch cannot be taken |
| WebSocketUrl.ColonDigitsEndWithDevPort | src/state/redux-slices/core/slice.ts:40 | text ending in `:` and digits ends in `:1420` exactly when the digits are `1420` |
| WebSocketUrl.EndsWithDevPortIff | src/state/redux-slices/core/slice.ts:40 | an address ending in `:` and a decimal port ends in `:1420` exactly when the port is 1420 |
| WebSocketUrl.NoDevPortBeforePortColon | src/state/redux-slices/core/slice.ts:41 | in `http://host:1420` with a colon-free host, the only `:1420` is the port |
| WebSocketUrl.SocketPortIsHostingPortPlusOne | src/utils.ts:7-11 | for a page at `http://host:p` (colon-free host, p not 79, 80 or 65535) the hosting address is the same host on p, or on 9527 when p is 1420, and the relay port is that hosting port plus one |
| KaraokeView.ToLower | src/components/karaoke.tsx:61-62 | lowering keeps the length, maps each character, and leaves no ASCII capital |
| KaraokeView.ToLowerIdempotent | src/components/karaoke.tsx:61-62 | lowering twice is lowering once |
| KaraokeView.IndexOfFrom | src/components/karaoke.tsx:69 | `indexOf` from a position: -1 iff the query does not occur from there, otherwise the first position where it does |
| KaraokeView.IndexOf | src/components/karaoke.tsx:69 | `indexOf(q) >= 0` iff `q` occurs in the text, and the index is its first occurrence |
| KaraokeView.FilterSong | src/components/karaoke.tsx:55-71 | with exactMatch, true iff the lowered name equals the lowered query; otherwise true iff the lowered query occurs in the lowered name |
| KaraokeView.ExactMatchIsSubstringMatch | src/components/karaoke.tsx:64-69 | an exact match is also a substring match |
| KaraokeView.EmptyQueryMatchesAll | src/components/karaoke.tsx:69 | the empty query matches every song |
| KaraokeView.FilterIgnoresQueryCase | src/components/karaoke.tsx:62 | a query and its lowered form match the same songs |
| KaraokeView.AlreadyExists | src/components/karaoke.tsx:108 | true iff an id was extracted and `find` by that key succeeds in the catalogue |
| KaraokeView.CanDownload | src/components/karaoke.tsx:109 | true iff a non-empty id was extracted and no catalogue song has it |
| KaraokeView.DownloadButtonsDisabled | src/components/karaoke.tsx:185-188 | both buttons are enabled iff no download is in progress, a non-empty id was extracted and the catalogue lacks it |
| KaraokeView.CalloutFor | src/components/karaoke.tsx:111-146 | the four cases split every input: downloadable iff `canDownload`; already listed iff an id is present in the catalogue; "no id found" iff no id and a non-empty URL; no callout iff no id and an empty URL |
| KaraokeView.EnabledButtonsShowDownloadable | src/components/karaoke.tsx:108-126 | whenever the buttons are enabled the callout is the downloadable one, for the same id |
| KaraokeView.QueueButtonFor | src/components/karaoke.tsx:425-460 | the button is disabled iff the song's key is queued; a queued song shows "Song is queued" and `#n in Queue` where n-1 is the first position holding its key, as `findIndex` gives; otherwise "Add to Queue" |
| KaraokeView.QueueLabelNamesPosition | src/components/karaoke.tsx:425-459 | in a duplicate-free queue the label names the song's own position, counted from 1 |
| KaraokeView.QueueLabelsDiffer | src/components/karaoke.tsx:425-459 | two queued songs with different keys show different labels |
| NavTabs.SelectedTabId | src/components/nav-tabs.tsx:10-13 | one leading `/` is removed, anything else is kept; an empty result becomes `circle-chart`; the id is never empty |
| NavTabs.TabPathRoundTrip | src/components/nav-tabs.tsx:10-13 | `/` + a non-empty id selects that id |
| NavTabs.OnlyOneSlashStripped | src/components/nav-tabs.tsx:11-12 | `//x` selects `/x`: only one slash is stripped |

Definitions without a row of their own, and the rows that state their properties:
`Splice` and `SpliceStart` (`SpliceCanBeUndone`, `SpliceKeepsEntries`, `SpliceOneIsRemoveAt`);
`NewHttpUrl`, `SetPort`, `SetProtocol`, `Href` and `SocketPort` (`SetPortDecimal`, `BumpStep`, `SwapStep`,
`BumpedPort`, `ProtocolStep`, `HrefOfWs`, `GetWebSocketUrl`); `FileIndex` (`FileIndexKeys`, `FileIndexLastWins`,
`PopulateHashMap`); `ContentRange` (the range rows); `ApplyOp` and `ApplyOps` (`ApplyOpKeepsDistinct`,
`ApplyOpsKeepsDistinct`); `OutputName` (`ParseOutputName`); `AlreadyInLibrary`, the error text of `DownloadSong`.

## Left out

- Yjs replication, the WebSocket provider and relay, and merging of concurrent edits. The song queue is a local sequence.
- `initKaraoke` / `cleanupKaraoke` observer wiring, timers and the `song:added` listener.
- `playRandomSong`, which uses `Math.random`.
- The network POST of `downloadSong` and its response handling. The model stops at the request it would send.
- The `fetch_youtube` command itself: threads, yt-dlp processes, the network and event emission. Its outcome is a parameter of `Serve`.
- HTTP I/O, `fs::read`, thread spawning, the `Mutex` and the asset resolver of the localhost server. Files and assets are maps passed in.
- The difference between `path.is_file()` (which follows symbolic links) and `file_type().is_file()` (which does not). An entry is a file or not in the abstract listing.
- Errors from `file_type()` are merged with entry errors.
- Non-UTF-8 file names are one kind of entry.
- OS error texts are one constant.
- A `Range` header that is not valid visible ASCII (`to_str` failing) is not represented: headers are strings.
- LocalhostServer.VideoReply: a start exactly one past the computed end (for example `bytes=5-4` on a 5-byte file) gives a 206 with an empty body. Rust's inclusive slice allows `start == end + 1`. Only larger starts panic.
- Pitch detection, audio capture and the float pitch state. `CoreState`'s thresholds are `real`; `windowSize` and `workerCacheKey` are integers. `SongInfo`'s `duration`, `playPosition` and `downloadStatus` are not modelled, since nothing in the core reads them.
- KaraokeView.ToLower: `toLowerCase` is modelled for ASCII letters only. Unicode case mapping is not modelled.
- `formatSongName` and `getYoutubeIdFromUrl` are not part of this model. Their results are inputs.
- FetchYoutube.ParseOutputName: the round trip assumes the downloader's file ends in `.mp4` or has no extension. The remuxed name is decided by yt-dlp, which is not part of this model.
- WebSocketUrl.GetWebSocketUrl: the page's port is assumed to be at most 65535, as the browser guarantees.
- WebSocketUrl.GetWebSocketUrl: the host is assumed to be a plain host name. The URL parser's host validation and IPv6 brackets are not modelled.
- WebSocketUrl.SocketPortIsHostingPortPlusOne: ports 79, 80 and 65535 are excluded, because the relay port is then dropped or kept rather than incremented.
- Rendering, hotkeys, toasts and the playback-rate clamp of the karaoke screen.
