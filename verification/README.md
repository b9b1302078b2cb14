# Music Library App — a verified model

This project models the core of the Music Library App, a small web application for
uploading audio files, browsing and searching the library, playing songs and grouping
them into playlists. It has three parts:

- `library_store.dfy` — the SQLite-backed `Database` class of `database.py`. Its three
  tables (songs, playlists, playlist_songs) are sequences in rowid order. The
  AUTOINCREMENT counters are explicit fields. Every method reassigns its tables to a
  function of the old tables.
- `routes.dfy` — the Flask helpers and the decision logic of the routes in `app.py`:
  - `allowed_file`, `format_file_size`, the sort whitelist, the song-listing decoration;
  - the upload guards, the `os.path.splitext` file naming and the title derivation;
  - the routes that read, play, create and delete songs and playlists and that link and unlink a song and a playlist.
- `library_client.dfy` — the browser-side `MusicLibrary` class of `static/js/app.js`:
  - cursor arithmetic for next, previous and shuffle;
  - the play/pause state machine and the volume icon;
  - loading, switching and searching the view, deleting songs and playlists;
  - adding songs to and removing them from playlists;
  - the multi-file upload summary, `formatTime` and `hashString`.

Shared helpers live in `wrappers.dfy` (`Option`, `Result`), `text.dfy` (decimal
rendering, ASCII case mapping, code-point order, substring search) and `sorting.dfy`
(a stable insertion sort, a filter and a lookup by key, with their order and membership
lemmas).

Everything the program learns from outside becomes a parameter:
- the outcome of a fetch, a `play()` call or a file save;
- the reloaded lists;
- `Math.random()` (a real in [0, 1));
- the clock (`now`, `timestamp`);
- whether a file exists on disk, and the error an `os.remove` raises;
- the name `secure_filename` produced.

## Model

| member | source | states |
|---|---|---|
| LibraryStore.Database.constructor | Music-Library-App/database.py:19-57 | a fresh database has empty tables and both AUTOINCREMENT counters at 0, and satisfies the table invariant (unique ascending ids, at most one link per pair, distinct positions per playlist) |
| LibraryStore.Database.AddSong | Music-Library-App/database.py:61-69 | the returned id is one past the counter and larger than every existing id; the song table gains exactly the new row with play count 0 and no last_played |
| LibraryStore.Database.UpdatePlayCount | Music-Library-App/database.py:100-108 | the songs table becomes the old one with the matching row's play count raised by one and last_played set to now; the invariant is kept |
| LibraryStore.BumpPlayCountEffect | Music-Library-App/database.py:103-107 | the update touches only the row with that id: same length, same ids, that row's count +1 and last_played set, every other row equal |
| LibraryStore.Database.DeleteSong | Music-Library-App/database.py:110-116 | reports true exactly when the song existed; the song row and every link to it are removed and nothing else |
| LibraryStore.DropSong | Music-Library-App/database.py:114 | the result holds exactly the rows whose id differs, and keeps the ascending id order |
| LibraryStore.DropSongLinks | Music-Library-App/database.py:113 | the result holds exactly the links of other songs, and stays well formed |
| LibraryStore.Database.CreatePlaylist | Music-Library-App/database.py:118-126 | the returned id is one past the counter and above every existing id; the playlist table gains exactly one row with song count 0 |
| LibraryStore.Database.DeletePlaylist | Music-Library-App/database.py:143-148 | reports true exactly when the playlist existed; only that playlist row is removed (its links stay, as cascading deletes are off) |
| LibraryStore.DropPlaylist | Music-Library-App/database.py:146 | the result holds exactly the playlists with another id, in ascending id order |
| LibraryStore.Database.AddSongToPlaylist | Music-Library-App/database.py:150-180 | succeeds exactly when the pair is absent; on success one link is appended at the next position and that playlist's count rises by one; on refusal nothing changes |
| LibraryStore.MaxPosition | Music-Library-App/database.py:161-166 | None exactly when the playlist has no links; otherwise the value is a position of the playlist and bounds all of them |
| LibraryStore.NextPositionAfterMembers | Music-Library-App/database.py:161-166 | the next position is above every position in the playlist, and is 1 for an empty playlist |
| LibraryStore.AppendKeepsWellFormed | Music-Library-App/database.py:152-171 | appending a link for an absent pair at a position above the playlist's others keeps the link table well formed |
| LibraryStore.AddKeepsCountsAgree | Music-Library-App/database.py:168-177 | when every song_count equals the number of links, adding a new link and bumping the count keeps them equal |
| LibraryStore.Database.RemoveSongFromPlaylist | Music-Library-App/database.py:182-206 | as written: the pair's link is deleted and the song count drops by one unconditionally, and the result is always false |
| LibraryStore.ShiftAfterDeletedPair | Music-Library-App/database.py:196-203 | once the link is deleted, the position-shifting update finds no position to compare with and changes no row |
| LibraryStore.RemoveReportsFailureExample | Music-Library-App/database.py:182-206 | removing a pair that is present still reports false |
| LibraryStore.RemoveAbsentBreaksCounts | Music-Library-App/database.py:190-194 | removing an absent pair lowers the count, so song_count no longer matches the playlist's links |
| LibraryStore.Database.RemoveSongFromPlaylistFixed | Music-Library-App/database.py:182-206 | corrected: reports true exactly when the pair was present; the link goes, later positions shift down, and the count drops only when something was removed |
| LibraryStore.RemoveFixedWellFormed | Music-Library-App/database.py:196-203 | deleting a present link and shifting the later positions keeps the link table well formed |
| LibraryStore.ShiftDownMembers | Music-Library-App/database.py:196-203 | shifting positions changes no playlist's set of songs |
| LibraryStore.AdjustSongCountAt | Music-Library-App/database.py:190-194 | the count update changes only the named playlist's song_count, by the given delta |
| LibraryStore.RemoveFixedKeepsCountsAgree | Music-Library-App/database.py:182-206 | the corrected removal keeps every song_count equal to the number of links |
| LibraryStore.DeleteSongLeavesCountsStale | Music-Library-App/database.py:110-116 | deleting a song drops its links without lowering the song_count of the playlists that held it |
| LibraryStore.DropPair | Music-Library-App/database.py:185-188 | exactly the links of other pairs remain, well formedness is kept, and the pair is gone |
| LibraryStore.PositionOf | Music-Library-App/database.py:199-202 | None exactly when the pair is absent; otherwise it is the position recorded for the pair |
| Sorting.FindFirst | Music-Library-App/database.py:81-87 | the lookup by id behind `get_song`, `get_playlist` and the client's `find` calls: a result is a row of the table with that key; None exactly when no row has the key |
| Sorting.FindFirstIsFirst | Music-Library-App/static/js/app.js:915 | the row found is the first one carrying the key, as `Array.prototype.find` returns it |
| Sorting.Filter | Music-Library-App/database.py:93-95 | the `WHERE` of a query: a row is kept exactly when it matches, and each matching row as many times as the table holds it |
| LibraryStore.Database.GetSong | Music-Library-App/database.py:81-87 | Some exactly when a song with the id exists, and then it is that row |
| LibraryStore.Database.GetPlaylist | Music-Library-App/database.py:135-141 | Some exactly when a playlist with the id exists, and then it is that row |
| LibraryStore.Database.AllSongs | Music-Library-App/database.py:71-79 | a permutation of the songs table, ordered by the chosen column in the chosen direction |
| LibraryStore.ColumnLeTotalPreorder | Music-Library-App/database.py:75-78 | each column/direction ordering is total and transitive, so the listing is well defined |
| LibraryStore.StrLeTotalPreorder | Music-Library-App/database.py:75-78 | the text order on titles, artists and albums is total and transitive |
| LibraryStore.OrderingsTotal | Music-Library-App/database.py:96 | the title, play-count and name orderings are total preorders |
| LibraryStore.Database.Search | Music-Library-App/database.py:89-98 | the result holds exactly the songs whose title, artist or album contains the query ignoring ASCII case, each as often as the table holds it (the same multiset as the filtered table), sorted by title |
| LibraryStore.Database.AllPlaylists | Music-Library-App/database.py:128-133 | a permutation of the playlist table ordered by name |
| LibraryStore.Database.PlaylistSongs | Music-Library-App/database.py:208-219 | every entry comes from a link of the playlist joined to its song, every such link with an existing song appears, and positions strictly ascend |
| LibraryStore.JoinMembersExact | Music-Library-App/database.py:212-218 | the join yields exactly the playlist's links whose song exists, each with its song and position |
| LibraryStore.JoinMembersAscending | Music-Library-App/database.py:217 | with positions ordered in the table, the joined entries come out in ascending position |
| LibraryStore.Database.Stats | Music-Library-App/database.py:221-247 | counts equal the table sizes, storage is the sum of known file sizes, and most_played has the first min(5, n) rows in descending play count |
| LibraryStore.TotalStorageAppend | Music-Library-App/database.py:231-232 | storage grows by the new song's file size, a missing size counting 0 |
| LibraryStore.TotalStorageBounds | Music-Library-App/database.py:231-232 | with non-negative sizes the total is non-negative and at least every single size |
| LibraryStore.TopPlayedMost | Music-Library-App/database.py:234-240 | the top list has at most five rows, all from the table, in descending play count, and no row left out plays more than the last one kept |
| Routes.LastIndex | Music-Library-App/app.py:28 | a found index holds the character |
| Routes.LastIndexMeaning | Music-Library-App/app.py:28 | no later character equals it, and None means the character does not occur (Python's `rsplit(c, 1)`) |
| Routes.LastDotFound | Music-Library-App/app.py:27-28 | the last dot as a predicate and as a search agree |
| Routes.AllowedFileMeaning | Music-Library-App/app.py:26-28 | a name is allowed exactly when it has a last dot and the lower-cased text after it is one of the six extensions |
| Routes.NoDotInExtensions | Music-Library-App/app.py:17 | no allowed extension contains a dot |
| Routes.AllowedWithExtension | Music-Library-App/app.py:26-28 | any stem followed by a dot and an allowed extension (in any case) is allowed |
| Routes.AllowedFileIgnoresCase | Music-Library-App/app.py:28 | lower-casing a file name does not change whether it is allowed |
| Routes.LastDotIgnoresCase | Music-Library-App/app.py:28 | lower-casing does not move the last dot |
| Routes.FileSizeSpecMeaning | Music-Library-App/app.py:31-37 | the shown amount times its unit's scale is the size; below TB the amount of a non-negative size is under 1024; above B it is at least 1 |
| Routes.FormatFileSize | Music-Library-App/app.py:31-37 | the dividing loop picks the same amount and unit as the threshold definition |
| Routes.ParseColumn | Music-Library-App/app.py:70-72 | a column is recognised exactly when its name is in the whitelist, and its name reads back unchanged |
| Routes.SanitizeSort | Music-Library-App/app.py:67-77 | a whitelisted column is kept and anything else becomes title; the order is DESC exactly when DESC was asked for |
| Routes.OrderByWhitelisted | Music-Library-App/app.py:67-77 | every column and direction the sanitised query can carry names a whitelisted column and ASC or DESC, and the interpolated ORDER BY text holds only lower-case letters, '_', a space and the letters of ASC/DESC, so no quote or semicolon from the request reaches the SQL |
| Routes.Listing | Music-Library-App/app.py:79-84 | one entry per row in the same order; `file_url` is `/uploads/` followed by the file path when the path is non-empty and absent otherwise; `file_size_display` is the size rendered by the `format_file_size` thresholds (`FileSizeSpec`) when the size is present and non-zero, and absent otherwise |
| Routes.DecorateSongs | Music-Library-App/app.py:79-84 | the in-place loop decorates every element of the list |
| Routes.Respond | Music-Library-App/app.py:79-86 | the copied and decorated list equals the listing of the rows |
| Routes.GetSongs | Music-Library-App/app.py:65-86 | the body is the listing of the store's songs in the sanitised order |
| Routes.SearchSongs | Music-Library-App/app.py:103-118 | an empty query yields an empty list; otherwise the listing of the store's search |
| Routes.UploadGuard | Music-Library-App/app.py:123-131 | an upload passes exactly when a file part is present, its name is not empty and it is allowed; a refusal is status 400 |
| Routes.UploadGuardOrder | Music-Library-App/app.py:123-131 | the three refusals carry their own messages and are checked in the source's order |
| Routes.SplitExt | Music-Library-App/app.py:135 | the stem and the extension concatenate to the name; the extension is empty, or a dot followed by text with no other dot and no '/' |
| Routes.StoredNameKeepsExtension | Music-Library-App/app.py:134-138 | the stored name splits into the original stem plus an underscore and the timestamp, and the original extension |
| Routes.SplitExtOfInsert | Music-Library-App/app.py:135-138 | inserting text without dots or slashes between a stem and its extension leaves the extension unchanged |
| Routes.DigitsHaveNoSeparator | Music-Library-App/app.py:137-138 | the timestamp's digits contain no dot and no slash |
| Routes.TitleFromIdempotent | Music-Library-App/app.py:147 | title-casing a title again changes nothing |
| Routes.Unscore | Music-Library-App/app.py:147 | each underscore becomes a space and every other character is kept |
| Routes.UploadSong | Music-Library-App/app.py:121-169 | a refused guard answers its 400, a failed save answers 500 with its message, and an exception from `db.add_song` answers 500 with its text, all three leaving the store unchanged; otherwise one song row is appended with the derived title, "Unknown Artist", 180 seconds, the stored name, the size and a MIME type defaulting to audio/mpeg, and the reply carries the new id and `/uploads/<name>` |
| Routes.PlayOutcome | Music-Library-App/app.py:181-197 | the file is streamed exactly when the song has a path and the file exists; an empty path answers 404 "File not found", a missing file 404 "File not found on server"; a stream serves `uploads/<path>` with the stored MIME type, or audio/mpeg when none is stored |
| Routes.PlaySong | Music-Library-App/app.py:172-197 | an unknown id answers "Song not found" with the store unchanged; a known id bumps its play count before the file checks |
| Routes.PlaylistFields | Music-Library-App/app.py:232-238 | accepted exactly when the JSON body is an object with a name; the description defaults to empty; otherwise 400 "Playlist name is required" |
| Routes.EmptyNameAccepted | Music-Library-App/app.py:234 | an empty name passes the check |
| Routes.CreatePlaylist | Music-Library-App/app.py:230-246 | a refusal leaves the store unchanged; otherwise the playlist is created and its id returned |
| Routes.GetSong | Music-Library-App/app.py:89-100 | 404 "Song not found" exactly when no row has the id; otherwise the row decorated as in the listings |
| Routes.DeleteSong | Music-Library-App/app.py:200-221 | 404 for an unknown id with nothing changed; a failing file removal answers 500 with its message before the database is touched; otherwise the existing file is removed, the row and its links are deleted and the reply is success (the "Failed to delete song" answer cannot occur, since the row was just found) |
| Routes.GetPlaylist | Music-Library-App/app.py:249-266 | 404 "Playlist not found" exactly when no playlist has the id; otherwise the playlist row with one entry per joined song, in the store's position order, each decorated as in the listings and carrying its position |
| Routes.DeletePlaylist | Music-Library-App/app.py:269-276 | success exactly when the playlist existed, otherwise 404 "Playlist not found"; only that row is removed |
| Routes.AddSongToPlaylist | Music-Library-App/app.py:279-286 | success exactly when the pair was not yet linked, with one link appended at the next position and the count raised; otherwise 400 "Song already in playlist" with nothing changed |
| Routes.RemoveSongFromPlaylist | Music-Library-App/app.py:289-296 | as written: always 404 "Song not in playlist", even though the link is deleted and the playlist's count drops by one |
| Routes.RemoveSongFromPlaylistFixed | Music-Library-App/app.py:289-296 | with the corrected removal: success exactly when the pair was present, otherwise 404 "Song not in playlist"; the tables become the corrected removal's result |
| LibraryClient.NextIndexInRange | Music-Library-App/static/js/app.js:554-567 | the next index stays in range exactly when the cursor is at least -1, and wraps like (i+1) mod n |
| LibraryClient.PrevIndexInRange | Music-Library-App/static/js/app.js:543-552 | the previous index stays in range exactly when the cursor is at most n, and wraps like (i-1+n) mod n |
| LibraryClient.NextPrevInverse | Music-Library-App/static/js/app.js:543-567 | on an in-range cursor, next then previous and previous then next both return to it |
| LibraryClient.AdvanceCycles | Music-Library-App/static/js/app.js:554-567 | k steps of next from song 0 land on k mod n, so every song is reached |
| LibraryClient.ShufflePickInRange | Music-Library-App/static/js/app.js:557-558 | a shuffle pick from [0, 1) is always a valid index |
| LibraryClient.ShufflePickReaches | Music-Library-App/static/js/app.js:557-558 | every index can be the shuffle pick |
| LibraryClient.PlayAtEffect | Music-Library-App/static/js/app.js:451-485 | playing moves the cursor; a listed song takes the panel and the source and sends its play-count request; the flag rises only when the request went out and play() succeeded; an unlisted index changes nothing else |
| LibraryClient.PauseThenResume | Music-Library-App/static/js/app.js:509-533 | pausing a playing song and resuming it restores the deck with the flag set |
| LibraryClient.ToggleStartsFirstSong | Music-Library-App/static/js/app.js:513-514 | toggling with no source loaded starts song 0 |
| LibraryClient.IconFor | Music-Library-App/static/js/app.js:612-625 | the icon is muted exactly at 0 and loud exactly from 50 up |
| LibraryClient.IconMonotone | Music-Library-App/static/js/app.js:612-625 | a higher volume never shows a quieter icon |
| LibraryClient.FirstMatch | Music-Library-App/static/js/app.js:915 | when the k-th listed song is the first with the id, `songs.find` returns it |
| LibraryClient.StopsOnlyIfListed | Music-Library-App/static/js/app.js:911-922 | playback stops only for a song in the list searched, and does stop when its first listing carries the title on the panel |
| LibraryClient.DeletedSongKeepsPlaying | Music-Library-App/static/js/app.js:902-931 | looking the song up in the reloaded list misses it, while the list before the reload would have stopped playback |
| LibraryClient.JsRem | Music-Library-App/static/js/app.js:1006-1012 | JavaScript's `%`: the dividend equals quotient times divisor plus remainder, and the remainder has the dividend's sign |
| LibraryClient.FormatTimeClock | Music-Library-App/static/js/app.js:1006-1012 | a non-negative time renders as whole minutes, a colon and two-digit seconds |
| LibraryClient.FormatTimeRoundTrip | Music-Library-App/static/js/app.js:1006-1012 | reading the minutes and seconds back from the rendering gives the number of seconds |
| LibraryClient.ToInt32 | Music-Library-App/static/js/app.js:504 | the result is a signed 32-bit integer congruent to the input modulo 2^32 |
| LibraryClient.CharUnits | Music-Library-App/static/js/app.js:504 | `charCodeAt` units of one character: the code point itself below 65536; above it, a high surrogate and a low surrogate that decode back to the code point |
| LibraryClient.CodeUnits | Music-Library-App/static/js/app.js:503-504 | a string yields at least one UTF-16 code unit per character, each below 65536, and a string with no character above 65535 yields exactly its code points |
| LibraryClient.HashMagnitude | Music-Library-App/static/js/app.js:501-507 | the hash's magnitude is bounded by the number of code units times 2^31 + 2^16 |
| LibraryClient.HashString | Music-Library-App/static/js/app.js:501-507 | the loop returns the absolute value of the 32-bit hash of the title's code units |
| LibraryClient.Hue | Music-Library-App/static/js/app.js:487-499 | the cover hue lies in [0, 360) |
| LibraryClient.UploadAccounting | Music-Library-App/static/js/app.js:722-757 | uploaded plus failed files equals the files chosen, and no error line exists exactly when every file was stored |
| LibraryClient.Summarize | Music-Library-App/static/js/app.js:774-780 | a failure summary exactly when there are errors; it carries the uploaded and chosen counts given, shows the first min(3, errors) errors in order and counts the rest, with a non-zero rest exactly when there are more than three |
| LibraryClient.UploadMessage | Music-Library-App/static/js/app.js:774-780 | the warning reads `Uploaded u/t files. Errors: ` followed by the first errors joined by ", ", and ends in ` and k more` (k = errors - 3) exactly when there are more than three; the success message says "file" only for one file |
| LibraryClient.MusicLibrary.constructor | Music-Library-App/static/js/app.js:5-16 | cursor 0, not playing, no shuffle or repeat, view 'all', empty lists, volume 80 with the loud icon, no song remembered for the add-to-playlist dialog, no source, "No song selected" |
| LibraryClient.MusicLibrary.PlaySong | Music-Library-App/static/js/app.js:451-485 | the deck becomes the play step applied to the current view |
| LibraryClient.MusicLibrary.TogglePlayPause | Music-Library-App/static/js/app.js:509-533 | the deck becomes the toggle step |
| LibraryClient.MusicLibrary.PlayPrevious | Music-Library-App/static/js/app.js:543-552 | plays the previous index with wrap-around |
| LibraryClient.MusicLibrary.PlayNext | Music-Library-App/static/js/app.js:554-567 | plays the shuffle pick when shuffled, otherwise the next index with wrap-around |
| LibraryClient.MusicLibrary.OnSongEnded | Music-Library-App/static/js/app.js:603-610 | with repeat on, the song rewinds and replays; otherwise it behaves as next |
| LibraryClient.MusicLibrary.ToggleShuffle | Music-Library-App/static/js/app.js:569-573 | the shuffle flag flips |
| LibraryClient.MusicLibrary.ToggleRepeat | Music-Library-App/static/js/app.js:575-579 | the repeat flag flips |
| LibraryClient.MusicLibrary.SetVolume | Music-Library-App/static/js/app.js:612-625 | stores the volume and shows its icon |
| LibraryClient.MusicLibrary.LoadSongs | Music-Library-App/static/js/app.js:320-339 | a successful load replaces both the songs and the view; a failed one keeps them |
| LibraryClient.MusicLibrary.RefreshLibrary | Music-Library-App/static/js/app.js:962-968 | playlists and songs are each replaced by a successful load and kept on failure |
| LibraryClient.MusicLibrary.LoadPlaylistSongs | Music-Library-App/static/js/app.js:664-676 | a playlist that loads replaces the view and nothing else; a failed load keeps it |
| LibraryClient.MusicLibrary.SearchSongs | Music-Library-App/static/js/app.js:678-700 | an empty query reloads the current view (all songs or the open playlist); any other query replaces the view with the results; the cursor never moves |
| LibraryClient.MusicLibrary.ShowAddToPlaylistDialog | Music-Library-App/static/js/app.js:821-824 | the dialog remembers the song it was opened for |
| LibraryClient.MusicLibrary.ConfirmAddToPlaylist | Music-Library-App/static/js/app.js:826-874 | no playlist selected, or no song remembered (null or 0), sends nothing; otherwise one add request for the remembered song, and the song is forgotten exactly when the request reached the server |
| LibraryClient.MusicLibrary.RemoveSongFromPlaylist | Music-Library-App/static/js/app.js:876-900 | after confirmation one DELETE for the open view's key and the song; a successful answer reloads the view and then the playlists; a refusal changes neither |
| LibraryClient.MusicLibrary.SwitchPlaylist | Music-Library-App/static/js/app.js:632-676 | the view key changes while the cursor does not; 'all' reloads all songs, a listed playlist loads its songs into the view, an unknown key keeps the view |
| LibraryClient.StaleIndexAfterSwitch | Music-Library-App/static/js/app.js:632-662 | after switching from song 4 to a two-song view, "previous" targets index 3, which is outside the view, so nothing plays |
| LibraryClient.MusicLibrary.DeletePlaylist | Music-Library-App/static/js/app.js:933-960 | an unknown id or a refused confirmation sends nothing; a confirmed one sends the DELETE, and on success falls back to 'all' if that playlist was shown, then reloads |
| LibraryClient.MusicLibrary.DeleteSong | Music-Library-App/static/js/app.js:902-931 | as written: after a successful delete and reload, playback stops only if the reloaded list still holds the song with the shown title |
| LibraryClient.MusicLibrary.DeleteSongFixed | Music-Library-App/static/js/app.js:902-931 | corrected: the song is looked up in the list held before the reload, so a song on the panel stops |
| LibraryClient.MusicLibrary.HandleUpload | Music-Library-App/static/js/app.js:702-781 | no file selected sends nothing; otherwise one upload request per file in order, an add-to-playlist request for each stored song when a playlist is chosen, a reload, and the summary of the outcomes, which is "all uploaded" when every file was stored, and whose warning counts add up: uploaded plus errors equals the files chosen |
| LibraryClient.MusicLibrary.HandleCreatePlaylist | Music-Library-App/static/js/app.js:783-819 | an empty name sends no request; otherwise the create request is sent and a success reloads the library |

## Left out

- DOM rendering, modals, the notification display and CSS are not modelled; only the upload summary's text is. The client's state is its fields plus a log of the requests it sends.
- Promises and event timing are not modelled. Each client method runs atomically with its fetch outcomes given, and `Promise.all` in the refresh is two independent loads.
- The `<audio>` element is reduced to a source, a paused flag and a position. Seeking and the progress bar (`seekSong`, `updateProgress`) are not modelled.
- LibraryClient.MusicLibrary.ConfirmAddToPlaylist: on success `addSongToPlaylist` also adds one to the count shown in the sidebar. That count is page text, which is not modelled.
- LibraryClient.MusicLibrary.SearchSongs: the query is the search box's text after `trim()`. JavaScript's whitespace trimming is not modelled.
- LibraryClient.MusicLibrary.RemoveSongFromPlaylist: the outcome `ok` is an input. The model does not link it to the server: with the removal as written the server always answers 404, and the URL for the 'all' view matches no route.
- The `GET /api/playlists` and `GET /api/library/stats` routes are not modelled as route methods. Each returns its store method's result as JSON, and the store methods are modelled.
- Routes.DeleteSong: errors raised by the database itself (a locked file, a failed commit) are not modelled. Only the failure of `os.remove` is.
- Routes.FormatFileSize: the two-decimal rendering (`:.2f`) is not modelled. Only the amount and the unit chosen are, over exact reals.
- `secure_filename`, `mimetypes.guess_type`, `os.path.getsize`, `os.path.exists`, `time.time()` and the file save are inputs, not models.
- LibraryStore.Database.Search: SQL `LIKE` wildcards (`%`, `_`) inside the query are not modelled. The query is matched as a plain substring with ASCII case folding.
- NULL columns: artist, album, file path and file type are strings, with "" standing for NULL. The file size is an `Option`.
- Routes.PlaylistFields: JSON bodies are either absent or objects of string values. Arrays, scalars and non-string names are not modelled.
- Routes.TitleFrom: Python's `str.title` is modelled for ASCII letters only.
- Foreign keys are declared `ON DELETE CASCADE`, but SQLite does not enable them by default and the code never does. The model keeps the links of a deleted playlist, as the code would.
- The duration is the constant 180 that `get_song_duration` returns. Audio metadata is not read.
- Two uploads of the same name in the same second overwrite each other's file on disk. The model has no file system.
- LibraryClient.FormatTime: a NaN or fractional input is not modelled. Seconds are integers, floored as `Math.floor` does.
- The initial panel text and volume icon come from `templates/index.html`, which is not part of this model. The constructor sets them to "No song selected" and the loud icon.
- LibraryClient.MusicLibrary.PlaySong: the client sends the play-count request as a POST, but `app.py` serves that path only for GET. The model records the request without modelling the server's 405 answer.

## Findings

| source | as written | input that shows it | evidently intended | confidence | as-written member | corrected member |
|---|---|---|---|---|---|---|
| Music-Library-App/database.py:182-206 | the returned `rowcount` is that of the last statement, the position shift, which finds no row once the link is deleted, so the result is always false and the route always answers 404 | playlist 1 holding songs 7 and 8, remove song 7 | report true exactly when the link existed | not executed | Routes.RemoveSongFromPlaylist | Routes.RemoveSongFromPlaylistFixed |
| Music-Library-App/database.py:190-194 | song_count is decremented even when the pair was not in the playlist, and the positions are never shifted because the subquery runs after the delete | playlist 1 with song_count 1 and one link to song 7, remove song 9 | decrement and shift only when a link was removed, keeping song_count equal to the number of links | not executed | LibraryStore.RemoveAbsentBreaksCounts | LibraryStore.RemoveFixedKeepsCountsAgree |
| Music-Library-App/static/js/app.js:902-931 | `deleteSong` looks the song up after reloading the list it was just deleted from, so the now-playing song never stops after a successful reload | songs [7 "Intro", 8 "Outro"], "Intro" playing, delete song 7 | look the song up before the reload and stop playback of the deleted song | not executed | LibraryClient.DeletedSongKeepsPlaying | LibraryClient.MusicLibrary.DeleteSongFixed |
