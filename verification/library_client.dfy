/**
 * The browser client of static/js/app.js: the `MusicLibrary` object's
 * playback cursor (`currentSongIndex` over the songs on screen), its modes,
 * the view it shows, and the requests it sends.
 *
 * Every `fetch` and every `audio.play()` is an outcome passed in by the
 * caller (a bool for success, an Option for a list that did or did not
 * load), and `Math.random()` is a real `pick` in [0, 1).  Each method runs to
 * completion before the next begins: the interleavings of the awaited
 * calls are not modelled.
 */
module LibraryClient {
  import opened Wrappers
  import opened Text
  import opened Sorting

  /** A song as the client keeps it: the fields its decisions read. */
  datatype ClientSong = ClientSong(id: int, title: string)

  datatype ClientPlaylist = ClientPlaylist(id: int, name: string)

  /** The POST and DELETE requests the client sends. */
  datatype Request =
    | CountPlayReq(songId: int)
    | UploadReq(fileName: string)
    | AddToPlaylistReq(playlistKey: string, songId: int)
    | RemoveFromPlaylistReq(playlistKey: string, songId: int)
    | DeleteSongReq(songId: int)
    | DeletePlaylistReq(playlistId: int)
    | CreatePlaylistReq(name: string, description: string)

  /** The icon `setVolume` shows. */
  datatype VolumeIcon = Mute | Down | Up

  /**
   * The playback side of the object and the page: the cursor, the flag, the
   * audio element's source (a song id), pause state and position, the
   * now-playing title, and the requests sent so far.
   */
  datatype Deck = Deck(index: int, isPlaying: bool, paused: bool, source: Option<int>,
                       position: real, title: string, requests: seq<Request>)

  // ---------------------------------------------------------------------------
  // Cursor arithmetic

  /** `playNext` without shuffle: one forward, wrapping to 0 at the end. */
  function NextIndex(i: int, n: int): int {
    if i + 1 >= n then 0 else i + 1
  }

  /** `playPrevious`: one back, wrapping to the last song below 0. */
  function PrevIndex(i: int, n: int): int {
    if i - 1 < 0 then n - 1 else i - 1
  }

  /** `Math.floor(Math.random() * N)` */
  function ShufflePick(pick: real, n: int): int {
    (pick * n as real).Floor
  }

  /** The index `playNext` moves to. */
  function NextTarget(i: int, n: int, shuffled: bool, pick: real): int {
    if shuffled then ShufflePick(pick, n) else NextIndex(i, n)
  }

  /**
   * Moving forward lands in range exactly when the old index is at least -1,
   * so from any index the cursor ever holds; inside the range it is the
   * successor modulo N.
   */
  lemma NextIndexInRange(i: int, n: int)
    requires n > 0
    ensures 0 <= NextIndex(i, n) < n <==> i >= -1
    ensures 0 <= i < n ==> NextIndex(i, n) == (i + 1) % n
  {
    if 0 <= i < n && i + 1 < n {
      ModSmall(i + 1, n);
    }
  }

  /**
   * Moving back lands in range exactly when the old index is at most N: a
   * stale index further out stays out of range.  Inside the range it is the
   * predecessor modulo N.
   */
  lemma PrevIndexInRange(i: int, n: int)
    requires n > 0
    ensures 0 <= PrevIndex(i, n) < n <==> i <= n
    ensures 0 <= i < n ==> PrevIndex(i, n) == (i - 1 + n) % n
  {
    if 0 <= i < n {
      if i == 0 {
        ModSmall(n - 1, n);
      } else {
        assert (i - 1 + n) % n == i - 1 by {
          ModShift(i - 1, n);
        }
      }
    }
  }

  lemma ModSmall(a: int, n: int)
    requires 0 <= a < n
    ensures a % n == a
  {
  }

  lemma ModShift(a: int, n: int)
    requires 0 <= a < n
    ensures (a + n) % n == a
  {
    assert a + n == 1 * n + a;
  }

  /** Forward and back undo each other on every in-range index. */
  lemma NextPrevInverse(i: int, n: int)
    requires 0 <= i < n
    ensures PrevIndex(NextIndex(i, n), n) == i
    ensures NextIndex(PrevIndex(i, n), n) == i
  {
  }

  /** The index reached from `i` after `k` steps forward. */
  function Advance(i: int, n: int, k: nat): int {
    if k == 0 then i else NextIndex(Advance(i, n, k - 1), n)
  }

  /** Starting from the first song, k presses of "next" reach song k mod N: every song comes round. */
  lemma {:induction false} AdvanceCycles(n: int, k: nat)
    requires n > 0
    ensures Advance(0, n, k) == k % n
  {
    if k > 0 {
      AdvanceCycles(n, k - 1);
      var r := (k - 1) % n;
      var q := (k - 1) / n;
      assert k - 1 == q * n + r;
      if r + 1 == n {
        assert k == (q + 1) * n;
        ModOfMultiple(q + 1, n);
      } else {
        assert k == q * n + (r + 1);
        ModOfSum(q, n, r + 1);
      }
    }
  }

  lemma ModOfMultiple(q: int, n: int)
    requires n > 0
    ensures (q * n) % n == 0
  {
    ModOfSum(q, n, 0);
  }

  lemma MulAtLeast(t: int, n: int)
    requires t >= 1 && n > 0
    ensures t * n >= n
  {
    var k := t - 1;
    assert t * n == k * n + n;
    assert k * n >= 0;
  }

  /** The remainder of q*N + r is r: Euclidean division leaves no other choice. */
  lemma ModOfSum(q: int, n: int, r: int)
    requires n > 0 && 0 <= r < n
    ensures (q * n + r) % n == r
  {
    var a := q * n + r;
    var q' := a / n;
    var r' := a % n;
    assert a == q' * n + r';
    var t := q - q';
    assert t * n == r' - r by {
      assert q * n - q' * n == t * n;
    }
    if t >= 1 {
      MulAtLeast(t, n);
    } else if t <= -1 {
      MulAtLeast(-t, n);
    }
  }

  /** Shuffle always lands in range. */
  lemma ShufflePickInRange(pick: real, n: int)
    requires 0.0 <= pick < 1.0 && n > 0
    ensures 0 <= ShufflePick(pick, n) < n
  {
    var x := pick * n as real;
    assert 0.0 <= x;
    assert x < n as real by {
      assert (1.0 - pick) * n as real > 0.0;
    }
  }

  /** Shuffle can land on any song, the current one included. */
  lemma ShufflePickReaches(k: int, n: int)
    requires 0 <= k < n
    ensures exists pick :: 0.0 <= pick < 1.0 && ShufflePick(pick, n) == k
  {
    var pick := k as real / n as real;
    assert pick * n as real == k as real;
    assert pick < 1.0 by {
      assert (k as real) < n as real;
    }
    assert ShufflePick(pick, n) == k;
  }

  // ---------------------------------------------------------------------------
  // Playback steps on the deck

  /**
   * `playSong(index)`: nothing on an empty view; otherwise the cursor moves
   * to `index`.  An index with no song behind it ends in the caught
   * TypeError of `updateNowPlaying(undefined)`.  Otherwise the panel shows
   * the song, the audio source is replaced (which pauses and rewinds), the
   * play-count POST is sent, and only when it went out and `play()`
   * succeeded does `isPlaying` become true; a failure leaves the flag as it
   * was.
   */
  function PlayAt(d: Deck, view: seq<ClientSong>, index: int, countSent: bool, playOk: bool): Deck {
    if |view| == 0 then d
    else if !(0 <= index < |view|) then d.(index := index)
    else
      var song := view[index];
      var started := countSent && playOk;
      d.(index := index, title := song.title, source := Some(song.id), position := 0.0,
         paused := !started, isPlaying := started || d.isPlaying,
         requests := d.requests + [CountPlayReq(song.id)])
  }

  /**
   * `togglePlayPause`: nothing on an empty view; a playing element is
   * paused and the flag cleared; a paused element with no source starts the
   * first song; a paused element with a source resumes it.
   */
  function ToggleAt(d: Deck, view: seq<ClientSong>, countSent: bool, playOk: bool): Deck {
    if |view| == 0 then d
    else if !d.paused then d.(paused := true, isPlaying := false)
    else if d.source.None? then PlayAt(d, view, 0, countSent, playOk)
    else d.(paused := !playOk, isPlaying := playOk || d.isPlaying)
  }

  /** What `playSong` guarantees about the flag, the cursor and the requests. */
  lemma PlayAtEffect(d: Deck, view: seq<ClientSong>, index: int, countSent: bool, playOk: bool)
    requires |view| > 0
    ensures var r := PlayAt(d, view, index, countSent, playOk);
      && r.index == index
      && (r.isPlaying ==> d.isPlaying || (0 <= index < |view| && countSent && playOk))
      && (0 <= index < |view| ==> r.source == Some(view[index].id) && r.title == view[index].title
                                  && r.requests == d.requests + [CountPlayReq(view[index].id)])
      && (!(0 <= index < |view|) ==> r == d.(index := index))
  {
  }

  /** Pausing a playing song and resuming it, when play() succeeds, restores the deck with the flag set. */
  lemma PauseThenResume(d: Deck, view: seq<ClientSong>, countSent: bool)
    requires |view| > 0 && !d.paused && d.source.Some?
    ensures ToggleAt(ToggleAt(d, view, countSent, true), view, countSent, true) == d.(isPlaying := true)
  {
  }

  /** The first toggle on a fresh page starts song 0. */
  lemma ToggleStartsFirstSong(d: Deck, view: seq<ClientSong>, countSent: bool, playOk: bool)
    requires |view| > 0 && d.paused && d.source.None?
    ensures ToggleAt(d, view, countSent, playOk).index == 0
    ensures ToggleAt(d, view, countSent, playOk).source == Some(view[0].id)
  {
  }

  /** `setVolume`'s icon thresholds. */
  function IconFor(value: int): (icon: VolumeIcon)
    ensures icon == Mute <==> value == 0
    ensures icon == Up <==> value >= 50
  {
    if value == 0 then Mute else if value < 50 then Down else Up
  }

  function Loudness(icon: VolumeIcon): nat {
    match icon
    case Mute => 0
    case Down => 1
    case Up => 2
  }

  /** On the slider's range, raising the volume never shows a quieter icon. */
  lemma IconMonotone(v: int, w: int)
    requires 0 <= v <= w <= 100
    ensures Loudness(IconFor(v)) <= Loudness(IconFor(w))
  {
  }

  // ---------------------------------------------------------------------------
  // Lookups in the client's lists

  function SongId(s: ClientSong): int { s.id }

  function PlaylistId(p: ClientPlaylist): int { p.id }

  /** A playlist's id as the views and the select boxes carry it: `p.id.toString()`. */
  function PlaylistKeyText(p: ClientPlaylist): string { IntToString(p.id) }

  /** `songs.find(s => s.id === id)` */
  function FindClientSong(list: seq<ClientSong>, id: int): Option<ClientSong> {
    FindFirst(list, SongId, id)
  }

  /** `playlists.find(p => p.id === id)` */
  function PlaylistById(list: seq<ClientPlaylist>, id: int): Option<ClientPlaylist> {
    FindFirst(list, PlaylistId, id)
  }

  /** `playlists.find(p => p.id.toString() === key)` */
  function PlaylistByKey(list: seq<ClientPlaylist>, key: string): Option<ClientPlaylist> {
    FindFirst(list, PlaylistKeyText, key)
  }

  /**
   * The test `deleteSong` makes after the reload: the deleted id is found in
   * `list` and its title is the one on the now-playing panel.
   */
  predicate StopsPlayback(list: seq<ClientSong>, id: int, title: string) {
    match FindClientSong(list, id)
    case Some(s) => s.title == title
    case None => false
  }

  /** The test stops playback only for an id still present in the list it searches. */
  lemma StopsOnlyIfListed(list: seq<ClientSong>, id: int, title: string)
    ensures StopsPlayback(list, id, title) ==> exists k :: 0 <= k < |list| && list[k].id == id
    ensures (exists k :: 0 <= k < |list| && list[k].id == id && list[k].title == title
               && forall j :: 0 <= j < k ==> list[j].id != id) ==> StopsPlayback(list, id, title)
  {
    if exists k :: 0 <= k < |list| && list[k].id == id && list[k].title == title
                   && forall j :: 0 <= j < k ==> list[j].id != id {
      var k :| 0 <= k < |list| && list[k].id == id && list[k].title == title
               && forall j :: 0 <= j < k ==> list[j].id != id;
      FirstMatch(list, id, k);
    }
  }

  lemma FirstMatch(list: seq<ClientSong>, id: int, k: int)
    requires 0 <= k < |list| && list[k].id == id
    requires forall j :: 0 <= j < k ==> list[j].id != id
    ensures FindClientSong(list, id) == Some(list[k])
  {
    FindFirstIsFirst(list, SongId, id, k);
  }

  /**
   * As written, a successful delete followed by a successful reload never
   * stops the song: the server no longer lists it, so the lookup fails.
   */
  lemma DeletedSongKeepsPlaying()
    ensures var before := [ClientSong(7, "Intro"), ClientSong(8, "Outro")];
      var reloaded := [ClientSong(8, "Outro")];
      && StopsPlayback(before, 7, "Intro")
      && !StopsPlayback(reloaded, 7, "Intro")
  {
    var before := [ClientSong(7, "Intro"), ClientSong(8, "Outro")];
    FirstMatch(before, 7, 0);
  }

  // ---------------------------------------------------------------------------
  // formatTime

  /** The quotient JavaScript's `%` goes with: truncated toward zero. */
  function JsQuot(a: int, b: int): int
    requires b > 0
  {
    if a >= 0 then a / b else -((-a) / b)
  }

  /**
   * JavaScript's `%`: what is left after the truncated quotient, so it takes
   * the sign of the dividend.
   */
  function JsRem(a: int, b: int): (r: int)
    requires b > 0
    ensures a == JsQuot(a, b) * b + r
    ensures a >= 0 ==> 0 <= r < b
    ensures a < 0 ==> -b < r <= 0
  {
    if a >= 0 then a % b
    else
      var m := (-a) % b;
      assert -a == ((-a) / b) * b + m;
      -m
  }

  /**
   * `formatTime` on a whole number of seconds: `Math.floor(s / 60)`, a colon,
   * and `Math.floor(s % 60)` with a '0' in front when it is below 10.
   */
  function FormatTime(seconds: int): string {
    var mins := seconds / 60;
    var secs := JsRem(seconds, 60);
    IntToString(mins) + ":" + (if secs < 10 then "0" else "") + IntToString(secs)
  }

  function TwoDigits(k: nat): (s: string)
    requires k < 100
    ensures |s| == 2 && AllDigits(s)
  {
    [DigitChar(k / 10), DigitChar(k % 10)]
  }

  /** For a non-negative time: minutes, a colon, and the seconds as exactly two digits. */
  lemma FormatTimeClock(s: nat)
    ensures FormatTime(s) == NatToString(s / 60) + ":" + TwoDigits(s % 60)
  {
    var secs := s % 60;
    if secs < 10 {
      assert NatToString(secs) == [DigitChar(secs)];
      assert DigitChar(0) == '0';
    } else {
      assert NatToString(secs) == NatToString(secs / 10) + [DigitChar(secs % 10)];
      assert NatToString(secs / 10) == [DigitChar(secs / 10)];
    }
  }

  /** Reads "m:ss" back: the text before the colon is minutes, the last two characters seconds. */
  function ParseClock(t: string): int
    requires |t| >= 3 && AllDigits(t[..|t| - 3]) && AllDigits(t[|t| - 2..])
  {
    ParseNat(t[..|t| - 3]) * 60 + ParseNat(t[|t| - 2..])
  }

  /** The rendered time reads back as the number of seconds it came from. */
  lemma FormatTimeRoundTrip(s: nat)
    ensures |FormatTime(s)| >= 4
    ensures AllDigits(FormatTime(s)[..|FormatTime(s)| - 3]) && AllDigits(FormatTime(s)[|FormatTime(s)| - 2..])
    ensures ParseClock(FormatTime(s)) == s
  {
    FormatTimeClock(s);
    var t := FormatTime(s);
    var m := NatToString(s / 60);
    var ss := TwoDigits(s % 60);
    assert t == m + ":" + ss;
    assert t[..|t| - 3] == m;
    assert t[|t| - 2..] == ss;
    ParseNatToString(s / 60);
    var tens, ones := (s % 60) / 10, (s % 60) % 10;
    assert ss[..1] == [DigitChar(tens)];
    assert [DigitChar(tens)][..0] == [];
    assert ParseNat([DigitChar(tens)]) == DigitValue(DigitChar(tens)) == tens;
    assert ParseNat(ss) == 10 * ParseNat(ss[..1]) + DigitValue(ss[1]);
    assert DigitValue(ss[1]) == ones;
  }

  // ---------------------------------------------------------------------------
  // hashString

  /** The UTF-16 code units of one character, as `charCodeAt` reads them. */
  function CharUnits(c: char): (u: seq<int>)
    ensures 1 <= |u| <= 2
    ensures forall k :: 0 <= k < |u| ==> 0 <= u[k] < 0x10000
    ensures c as int < 0x10000 ==> u == [c as int]
    ensures c as int >= 0x10000 ==>
      && |u| == 2 && 0xD800 <= u[0] < 0xDC00 <= u[1] < 0xE000
      && 0x10000 + (u[0] - 0xD800) * 0x400 + (u[1] - 0xDC00) == c as int
  {
    var v := c as int;
    if v < 0x10000 then [v]
    else [0xD800 + (v - 0x10000) / 0x400, 0xDC00 + (v - 0x10000) % 0x400]
  }

  /** `charCodeAt` over the whole string: each character's UTF-16 units, in order. */
  function CodeUnits(s: string): (u: seq<int>)
    ensures |u| >= |s|
    ensures forall k :: 0 <= k < |u| ==> 0 <= u[k] < 0x10000
    ensures (forall i :: 0 <= i < |s| ==> s[i] as int < 0x10000) ==> u == seq(|s|, i requires 0 <= i < |s| => s[i] as int)
  {
    if s == [] then [] else CharUnits(s[0]) + CodeUnits(s[1..])
  }

  /** ECMAScript ToInt32: wrap into the signed 32-bit range. */
  function ToInt32(x: int): (r: int)
    ensures -0x8000_0000 <= r < 0x8000_0000
    ensures (x - r) % 0x1_0000_0000 == 0
  {
    var m := x % 0x1_0000_0000;
    if m >= 0x8000_0000 then m - 0x1_0000_0000 else m
  }

  /**
   * One round of the loop: `code + ((hash << 5) - hash)`.  The shift wraps
   * to 32 bits, the subtraction and the addition do not.
   */
  function HashStep(hash: int, code: int): int {
    code + (ToInt32(hash * 32) - hash)
  }

  /** The loop's value after the given code units, before `Math.abs`. */
  function HashOf(units: seq<int>): int {
    if units == [] then 0 else HashStep(HashOf(units[..|units| - 1]), units[|units| - 1])
  }

  function Abs(x: int): nat {
    if x < 0 then -x else x
  }

  /**
   * Each round adds at most 2^31 + 2^16 to the magnitude, so for titles
   * under four million code units every intermediate value is an integer a
   * double holds exactly and the unbounded arithmetic here agrees with the
   * browser's.
   */
  lemma {:induction false} HashMagnitude(units: seq<int>)
    requires forall k :: 0 <= k < |units| ==> 0 <= units[k] < 0x10000
    ensures Abs(HashOf(units)) <= |units| * (0x8000_0000 + 0x10000)
  {
    if units != [] {
      var init := units[..|units| - 1];
      HashMagnitude(init);
    }
  }

  /** `hashString`: the loop over the code units, then `Math.abs`. */
  method HashString(str: string) returns (h: nat)
    ensures h == Abs(HashOf(CodeUnits(str)))
  {
    var units := CodeUnits(str);
    var hash := 0;
    for i := 0 to |units|
      invariant hash == HashOf(units[..i])
    {
      assert units[..i + 1][..i] == units[..i];
      hash := units[i] + ((ToInt32(hash * 32)) - hash);
    }
    assert units[..|units|] == units;
    h := if hash < 0 then -hash else hash;
  }

  /** The album-art hue `updateNowPlaying` derives from the title. */
  function Hue(title: string): (hue: int)
    ensures 0 <= hue < 360
  {
    Abs(HashOf(CodeUnits(title))) % 360
  }

  // ---------------------------------------------------------------------------
  // handleUpload

  /** How one file's upload went: stored with an id, answered with an error body, or no usable answer. */
  datatype UploadOutcome = Stored(songId: int) | Refused(error: string) | NetworkFailure

  /** The result message `handleUpload` shows. */
  datatype UploadSummary =
    | NothingSelected
    | AllUploaded(count: nat)
    | SomeFailed(uploaded: nat, total: nat, shown: seq<string>, more: nat)

  /** `uploadedCount` after the given outcomes. */
  function Uploaded(outcomes: seq<UploadOutcome>): nat {
    if outcomes == [] then 0
    else Uploaded(outcomes[..|outcomes| - 1]) + (if outcomes[|outcomes| - 1].Stored? then 1 else 0)
  }

  /** The entry a failed file adds to `errors`. */
  function FailureLine(name: string, outcome: UploadOutcome): string {
    match outcome
    case Refused(error) => name + ": " + (if error == "" then "Upload failed" else error)
    case _ => name + ": Network error"
  }

  /** `errors` after the given files. */
  function UploadErrors(names: seq<string>, outcomes: seq<UploadOutcome>): seq<string>
    requires |names| == |outcomes|
  {
    if outcomes == [] then []
    else
      var n := |outcomes| - 1;
      UploadErrors(names[..n], outcomes[..n]) + (if outcomes[n].Stored? then [] else [FailureLine(names[n], outcomes[n])])
  }

  /** The requests sent for the given files: the upload, then the add-to-playlist for a stored song. */
  function UploadTraffic(names: seq<string>, outcomes: seq<UploadOutcome>, target: string): seq<Request>
    requires |names| == |outcomes|
  {
    if outcomes == [] then []
    else
      var n := |outcomes| - 1;
      var o := outcomes[n];
      UploadTraffic(names[..n], outcomes[..n], target) + [UploadReq(names[n])]
        + (if o.Stored? && target != "" && o.songId != 0 then [AddToPlaylistReq(target, o.songId)] else [])
  }

  /** Every file is counted once: as uploaded or as an error, never both and never neither. */
  lemma {:induction false} UploadAccounting(names: seq<string>, outcomes: seq<UploadOutcome>)
    requires |names| == |outcomes|
    ensures Uploaded(outcomes) + |UploadErrors(names, outcomes)| == |outcomes|
    ensures UploadErrors(names, outcomes) == [] <==> forall k :: 0 <= k < |outcomes| ==> outcomes[k].Stored?
  {
    if outcomes != [] {
      var n := |outcomes| - 1;
      UploadAccounting(names[..n], outcomes[..n]);
      assert forall k :: 0 <= k < n ==> outcomes[..n][k] == outcomes[k];
    }
  }

  /** The summary: with errors, the first three and how many more; otherwise the count. */
  function Summarize(uploaded: nat, total: nat, errors: seq<string>): (s: UploadSummary)
    ensures s.SomeFailed? <==> errors != []
    ensures s.AllUploaded? ==> s.count == uploaded
    ensures s.SomeFailed? ==> |s.shown| <= 3 && |s.shown| + s.more == |errors| && s.shown == errors[..|s.shown|]
    ensures s.SomeFailed? ==> (s.more > 0 <==> |errors| > 3)
    ensures s.SomeFailed? ==>
      s.uploaded == uploaded && s.total == total && |s.shown| == (if |errors| < 3 then |errors| else 3)
  {
    if errors == [] then AllUploaded(uploaded)
    else
      var k := if |errors| < 3 then |errors| else 3;
      SomeFailed(uploaded, total, errors[..k], |errors| - k)
  }

  /** The notification text for a summary. */
  function SummaryText(s: UploadSummary): (text: string)
    ensures s.SomeFailed? ==>
      "Uploaded " + NatToString(s.uploaded) + "/" + NatToString(s.total) + " files. Errors: " <= text
  {
    match s
    case NothingSelected => "Please select at least one file"
    case AllUploaded(n) => "Successfully uploaded " + NatToString(n) + " file" + (if n != 1 then "s" else "")
    case SomeFailed(u, t, shown, more) =>
      "Uploaded " + NatToString(u) + "/" + NatToString(t) + " files. Errors: " + Join(shown, ", ")
        + (if more > 0 then " and " + NatToString(more) + " more" else "")
  }

  /**
   * The warning names the uploaded and chosen counts, lists the first errors
   * joined by ", ", and carries " and k more" exactly when errors were held
   * back; the success message uses the singular only for one file.
   */
  lemma UploadMessage(uploaded: nat, total: nat, errors: seq<string>)
    ensures errors == [] ==>
      SummaryText(Summarize(uploaded, total, errors))
        == "Successfully uploaded " + NatToString(uploaded) + (if uploaded == 1 then " file" else " files")
    ensures 0 < |errors| <= 3 ==>
      SummaryText(Summarize(uploaded, total, errors))
        == "Uploaded " + NatToString(uploaded) + "/" + NatToString(total) + " files. Errors: " + Join(errors, ", ")
    ensures |errors| > 3 ==>
      SummaryText(Summarize(uploaded, total, errors))
        == "Uploaded " + NatToString(uploaded) + "/" + NatToString(total) + " files. Errors: "
           + Join(errors[..3], ", ") + " and " + NatToString(|errors| - 3) + " more"
  {
    if 0 < |errors| <= 3 {
      assert errors[..|errors|] == errors;
    }
  }

  // ---------------------------------------------------------------------------
  // The MusicLibrary object

  class MusicLibrary {
    var currentSongIndex: int
    var isPlaying: bool
    var isShuffled: bool
    var isRepeated: bool
    /** 'all' or the decimal id of the playlist on screen. */
    var currentPlaylist: string
    var songs: seq<ClientSong>
    var playlists: seq<ClientPlaylist>
    /** The songs on screen, which the cursor indexes. */
    var filteredSongs: seq<ClientSong>
    /** The song the add-to-playlist dialog was opened for; None is JavaScript's null. */
    var currentSongForPlaylist: Option<int>
    var currentVolume: int
    var volumeIcon: VolumeIcon
    /** The audio element: the song its source plays, whether it is paused, its position. */
    var source: Option<int>
    var paused: bool
    var position: real
    /** The now-playing panel's title. */
    var nowPlaying: string
    /** The POST and DELETE requests sent, oldest first. */
    var requests: seq<Request>

    /** The object as the constructor leaves it, before any list has loaded. */
    constructor()
      ensures currentSongIndex == 0 && !isPlaying && !isShuffled && !isRepeated
      ensures currentPlaylist == "all" && songs == [] && playlists == [] && filteredSongs == []
      ensures currentSongForPlaylist.None?
      ensures currentVolume == 80 && volumeIcon == Up
      ensures source.None? && paused && position == 0.0
      ensures nowPlaying == "No song selected" && requests == []
    {
      currentSongIndex := 0;
      isPlaying := false;
      isShuffled := false;
      isRepeated := false;
      currentPlaylist := "all";
      songs := [];
      playlists := [];
      filteredSongs := [];
      currentSongForPlaylist := None;
      currentVolume := 80;
      volumeIcon := Up;
      source := None;
      paused := true;
      position := 0.0;
      nowPlaying := "No song selected";
      requests := [];
    }

    /** The playback side of the object, as one value. */
    function DeckState(): Deck
      reads this
    {
      Deck(currentSongIndex, isPlaying, paused, source, position, nowPlaying, requests)
    }

    /** `playSong(index)`; `countSent` is whether the play-count POST went out, `playOk` how `play()` ended. */
    method PlaySong(index: int, countSent: bool, playOk: bool)
      modifies this`currentSongIndex, this`isPlaying, this`paused, this`source, this`position, this`nowPlaying, this`requests
      ensures DeckState() == PlayAt(old(DeckState()), filteredSongs, index, countSent, playOk)
    {
      if |filteredSongs| == 0 {
        return;
      }
      currentSongIndex := index;
      if !(0 <= index < |filteredSongs|) {
        return;
      }
      var song := filteredSongs[index];
      nowPlaying := song.title;
      source := Some(song.id);
      paused := true;
      position := 0.0;
      requests := requests + [CountPlayReq(song.id)];
      if countSent && playOk {
        paused := false;
        isPlaying := true;
      }
    }

    /** `togglePlayPause` */
    method TogglePlayPause(countSent: bool, playOk: bool)
      modifies this`currentSongIndex, this`isPlaying, this`paused, this`source, this`position, this`nowPlaying, this`requests
      ensures DeckState() == ToggleAt(old(DeckState()), filteredSongs, countSent, playOk)
    {
      if |filteredSongs| == 0 {
        return;
      }
      if paused {
        if source.None? {
          PlaySong(0, countSent, playOk);
        } else if playOk {
          paused := false;
          isPlaying := true;
        }
      } else {
        paused := true;
        isPlaying := false;
      }
    }

    /** `playPrevious` */
    method PlayPrevious(countSent: bool, playOk: bool)
      modifies this`currentSongIndex, this`isPlaying, this`paused, this`source, this`position, this`nowPlaying, this`requests
      ensures DeckState() == PlayAt(old(DeckState()), filteredSongs, PrevIndex(old(currentSongIndex), |filteredSongs|), countSent, playOk)
    {
      if |filteredSongs| == 0 {
        return;
      }
      currentSongIndex := currentSongIndex - 1;
      if currentSongIndex < 0 {
        currentSongIndex := |filteredSongs| - 1;
      }
      PlaySong(currentSongIndex, countSent, playOk);
    }

    /** `playNext`; `pick` is the value `Math.random()` returned. */
    method PlayNext(pick: real, countSent: bool, playOk: bool)
      requires 0.0 <= pick < 1.0
      modifies this`currentSongIndex, this`isPlaying, this`paused, this`source, this`position, this`nowPlaying, this`requests
      ensures DeckState() == PlayAt(old(DeckState()), filteredSongs,
                               NextTarget(old(currentSongIndex), |filteredSongs|, isShuffled, pick), countSent, playOk)
    {
      if |filteredSongs| == 0 {
        return;
      }
      if isShuffled {
        currentSongIndex := (pick * |filteredSongs| as real).Floor;
      } else {
        currentSongIndex := currentSongIndex + 1;
        if currentSongIndex >= |filteredSongs| {
          currentSongIndex := 0;
        }
      }
      PlaySong(currentSongIndex, countSent, playOk);
    }

    /** `onSongEnded`: with repeat on, rewind and play again; otherwise exactly `playNext`. */
    method OnSongEnded(pick: real, countSent: bool, playOk: bool)
      requires 0.0 <= pick < 1.0
      modifies this`currentSongIndex, this`isPlaying, this`paused, this`source, this`position, this`nowPlaying, this`requests
      ensures isRepeated ==> DeckState() == old(DeckState()).(position := 0.0, paused := !playOk)
      ensures !isRepeated ==> DeckState() == PlayAt(old(DeckState()), filteredSongs,
                                               NextTarget(old(currentSongIndex), |filteredSongs|, isShuffled, pick), countSent, playOk)
    {
      if isRepeated {
        position := 0.0;
        paused := !playOk;
      } else {
        PlayNext(pick, countSent, playOk);
      }
    }

    method ToggleShuffle()
      modifies this`isShuffled
      ensures isShuffled == !old(isShuffled)
    {
      isShuffled := !isShuffled;
    }

    method ToggleRepeat()
      modifies this`isRepeated
      ensures isRepeated == !old(isRepeated)
    {
      isRepeated := !isRepeated;
    }

    /** `setVolume` */
    method SetVolume(value: int)
      modifies this`currentVolume, this`volumeIcon
      ensures currentVolume == value && volumeIcon == IconFor(value)
    {
      currentVolume := value;
      if value == 0 {
        volumeIcon := Mute;
      } else if value < 50 {
        volumeIcon := Down;
      } else {
        volumeIcon := Up;
      }
    }

    /** `loadSongs`: a loaded list replaces both the library and the view. */
    method LoadSongs(load: Option<seq<ClientSong>>)
      modifies this`songs, this`filteredSongs
      ensures songs == load.GetOr(old(songs))
      ensures filteredSongs == load.GetOr(old(filteredSongs))
    {
      if load.Some? {
        songs := load.value;
        filteredSongs := songs;
      }
    }

    /** `refreshLibrary`: the playlists and songs reloads, each applied when it succeeds. */
    method RefreshLibrary(playlistsLoad: Option<seq<ClientPlaylist>>, songsLoad: Option<seq<ClientSong>>)
      modifies this`playlists, this`songs, this`filteredSongs
      ensures playlists == playlistsLoad.GetOr(old(playlists))
      ensures songs == songsLoad.GetOr(old(songs))
      ensures filteredSongs == songsLoad.GetOr(old(filteredSongs))
    {
      if playlistsLoad.Some? {
        playlists := playlistsLoad.value;
      }
      LoadSongs(songsLoad);
    }

    /**
     * `switchPlaylist(key)`: records the key, then reloads all songs for
     * 'all' or the playlist's songs for a known playlist.  The cursor is
     * left where it was, whatever the new view's length.
     */
    method SwitchPlaylist(key: string, load: Option<seq<ClientSong>>)
      modifies this`currentPlaylist, this`songs, this`filteredSongs
      ensures currentPlaylist == key
      ensures currentSongIndex == old(currentSongIndex)
      ensures key == "all" ==> songs == load.GetOr(old(songs)) && filteredSongs == load.GetOr(old(filteredSongs))
      ensures key != "all" ==> songs == old(songs)
      ensures key != "all" && PlaylistByKey(playlists, key).Some? ==> filteredSongs == load.GetOr(old(filteredSongs))
      ensures key != "all" && PlaylistByKey(playlists, key).None? ==> filteredSongs == old(filteredSongs)
    {
      currentPlaylist := key;
      if key == "all" {
        LoadSongs(load);
      } else if PlaylistByKey(playlists, key).Some? {
        LoadPlaylistSongs(load);
      }
    }

    /**
     * `loadPlaylistSongs`: a playlist that loads replaces the view; the
     * library list is left alone.
     */
    method LoadPlaylistSongs(load: Option<seq<ClientSong>>)
      modifies this`filteredSongs
      ensures filteredSongs == load.GetOr(old(filteredSongs))
    {
      if load.Some? {
        filteredSongs := load.value;
      }
    }

    /**
     * `searchSongs` with the search box's trimmed text: an empty query
     * reloads the current view ('all' or the open playlist); any other
     * query replaces the view with the search results.  Either way the
     * library list and the cursor stay as they were, so the cursor may
     * point past the end of a shorter view.
     */
    method SearchSongs(query: string, load: Option<seq<ClientSong>>)
      modifies this`songs, this`filteredSongs
      ensures currentSongIndex == old(currentSongIndex)
      ensures query == "" && currentPlaylist == "all" ==>
        songs == load.GetOr(old(songs)) && filteredSongs == load.GetOr(old(filteredSongs))
      ensures !(query == "" && currentPlaylist == "all") ==>
        songs == old(songs) && filteredSongs == load.GetOr(old(filteredSongs))
    {
      if query == "" {
        if currentPlaylist == "all" {
          LoadSongs(load);
        } else {
          LoadPlaylistSongs(load);
        }
        return;
      }
      if load.Some? {
        filteredSongs := load.value;
      }
    }

    /** `showAddToPlaylistDialog(songId)`: remembers the song the dialog is for. */
    method ShowAddToPlaylistDialog(songId: int)
      modifies this`currentSongForPlaylist
      ensures currentSongForPlaylist == Some(songId)
    {
      currentSongForPlaylist := Some(songId);
    }

    /**
     * `confirmAddToPlaylistAction` with the selected playlist key: no
     * playlist selected, or no song remembered (null or the falsy id 0),
     * sends nothing.  Otherwise `addSongToPlaylist` POSTs the pair; when
     * the request reached the server (`reached`, whatever it answered) the
     * dialog closes and forgets the song, and when the fetch itself failed
     * the song stays remembered.
     */
    method ConfirmAddToPlaylist(key: string, reached: bool)
      modifies this`requests, this`currentSongForPlaylist
      ensures key == "" || old(currentSongForPlaylist) in {None, Some(0)} ==>
        requests == old(requests) && currentSongForPlaylist == old(currentSongForPlaylist)
      ensures key != "" && old(currentSongForPlaylist) !in {None, Some(0)} ==>
        && requests == old(requests) + [AddToPlaylistReq(key, old(currentSongForPlaylist).value)]
        && currentSongForPlaylist == (if reached then None else old(currentSongForPlaylist))
    {
      if key == "" {
        return;
      }
      if currentSongForPlaylist.None? || currentSongForPlaylist == Some(0) {
        return;
      }
      requests := requests + [AddToPlaylistReq(key, currentSongForPlaylist.value)];
      if reached {
        currentSongForPlaylist := None;
      }
    }

    /**
     * `removeSongFromPlaylist(songId)`: after confirmation it sends the
     * DELETE for the open view's key; a successful answer reloads the
     * view's playlist and then the playlists.  A refusal changes nothing.
     */
    method RemoveSongFromPlaylist(songId: int, confirmed: bool, ok: bool,
                                  viewLoad: Option<seq<ClientSong>>, playlistsLoad: Option<seq<ClientPlaylist>>)
      modifies this`requests, this`filteredSongs, this`playlists
      ensures !confirmed ==> requests == old(requests)
      ensures confirmed ==> requests == old(requests) + [RemoveFromPlaylistReq(currentPlaylist, songId)]
      ensures confirmed && ok ==>
        filteredSongs == viewLoad.GetOr(old(filteredSongs)) && playlists == playlistsLoad.GetOr(old(playlists))
      ensures !(confirmed && ok) ==> filteredSongs == old(filteredSongs) && playlists == old(playlists)
    {
      if !confirmed {
        return;
      }
      requests := requests + [RemoveFromPlaylistReq(currentPlaylist, songId)];
      if ok {
        LoadPlaylistSongs(viewLoad);
        if playlistsLoad.Some? {
          playlists := playlistsLoad.value;
        }
      }
    }

    /**
     * `deletePlaylist(id)`: an id the client does not list, or a refused
     * confirmation, sends nothing.  After a successful DELETE the view
     * falls back to 'all' if it showed that playlist, then the library
     * reloads.
     */
    method DeletePlaylist(id: int, confirmed: bool, ok: bool, switchLoad: Option<seq<ClientSong>>,
                          playlistsLoad: Option<seq<ClientPlaylist>>, songsLoad: Option<seq<ClientSong>>)
      modifies this`requests, this`currentPlaylist, this`playlists, this`songs, this`filteredSongs
      ensures PlaylistById(old(playlists), id).None? || !confirmed ==>
        requests == old(requests) && currentPlaylist == old(currentPlaylist)
        && playlists == old(playlists) && songs == old(songs) && filteredSongs == old(filteredSongs)
      ensures PlaylistById(old(playlists), id).Some? && confirmed ==> requests == old(requests) + [DeletePlaylistReq(id)]
      ensures PlaylistById(old(playlists), id).Some? && confirmed && !ok ==>
        currentPlaylist == old(currentPlaylist) && playlists == old(playlists)
        && songs == old(songs) && filteredSongs == old(filteredSongs)
      ensures PlaylistById(old(playlists), id).Some? && confirmed && ok ==>
        var shown := old(currentPlaylist) == IntToString(id);
        var viaSwitch := if shown then switchLoad else None;
        && currentPlaylist == (if shown then "all" else old(currentPlaylist))
        && playlists == playlistsLoad.GetOr(old(playlists))
        && songs == songsLoad.GetOr(viaSwitch.GetOr(old(songs)))
        && filteredSongs == songsLoad.GetOr(viaSwitch.GetOr(old(filteredSongs)))
    {
      if PlaylistById(playlists, id).None? || !confirmed {
        return;
      }
      requests := requests + [DeletePlaylistReq(id)];
      if ok {
        if currentPlaylist == IntToString(id) {
          SwitchPlaylist("all", switchLoad);
        }
        RefreshLibrary(playlistsLoad, songsLoad);
      }
    }

    /**
     * `deleteSong(id)` as written: after a successful DELETE and the reload,
     * the song is looked up in the reloaded list, and playback stops only if
     * it is found there with the title on the panel.
     */
    method DeleteSong(id: int, confirmed: bool, ok: bool,
                      playlistsLoad: Option<seq<ClientPlaylist>>, songsLoad: Option<seq<ClientSong>>)
      modifies this`requests, this`playlists, this`songs, this`filteredSongs, this`paused, this`isPlaying, this`nowPlaying
      ensures !confirmed ==> requests == old(requests)
      ensures confirmed ==> requests == old(requests) + [DeleteSongReq(id)]
      ensures !(confirmed && ok) ==>
        playlists == old(playlists) && songs == old(songs) && filteredSongs == old(filteredSongs)
        && paused == old(paused) && isPlaying == old(isPlaying) && nowPlaying == old(nowPlaying)
      ensures confirmed && ok ==>
        && playlists == playlistsLoad.GetOr(old(playlists))
        && songs == songsLoad.GetOr(old(songs))
        && filteredSongs == songsLoad.GetOr(old(filteredSongs))
        && (if StopsPlayback(songs, id, old(nowPlaying))
            then paused && !isPlaying && nowPlaying == "No song selected"
            else paused == old(paused) && isPlaying == old(isPlaying) && nowPlaying == old(nowPlaying))
    {
      if !confirmed {
        return;
      }
      requests := requests + [DeleteSongReq(id)];
      if ok {
        RefreshLibrary(playlistsLoad, songsLoad);
        var deleted := FindClientSong(songs, id);
        if deleted.Some? && nowPlaying == deleted.value.title {
          paused := true;
          isPlaying := false;
          nowPlaying := "No song selected";
        }
      }
    }

    /**
     * `deleteSong(id)` as evidently intended: the song is looked up before
     * the reload replaces the list, so a song that was on the panel stops.
     */
    method DeleteSongFixed(id: int, confirmed: bool, ok: bool,
                           playlistsLoad: Option<seq<ClientPlaylist>>, songsLoad: Option<seq<ClientSong>>)
      modifies this`requests, this`playlists, this`songs, this`filteredSongs, this`paused, this`isPlaying, this`nowPlaying
      ensures !confirmed ==> requests == old(requests)
      ensures confirmed ==> requests == old(requests) + [DeleteSongReq(id)]
      ensures !(confirmed && ok) ==>
        playlists == old(playlists) && songs == old(songs) && filteredSongs == old(filteredSongs)
        && paused == old(paused) && isPlaying == old(isPlaying) && nowPlaying == old(nowPlaying)
      ensures confirmed && ok ==>
        && playlists == playlistsLoad.GetOr(old(playlists))
        && songs == songsLoad.GetOr(old(songs))
        && filteredSongs == songsLoad.GetOr(old(filteredSongs))
        && (if StopsPlayback(old(songs), id, old(nowPlaying))
            then paused && !isPlaying && nowPlaying == "No song selected"
            else paused == old(paused) && isPlaying == old(isPlaying) && nowPlaying == old(nowPlaying))
    {
      if !confirmed {
        return;
      }
      requests := requests + [DeleteSongReq(id)];
      if ok {
        var deleted := FindClientSong(songs, id);
        RefreshLibrary(playlistsLoad, songsLoad);
        if deleted.Some? && nowPlaying == deleted.value.title {
          paused := true;
          isPlaying := false;
          nowPlaying := "No song selected";
        }
      }
    }

    /**
     * `handleUpload`: one upload per file, in order; a stored song joins
     * the chosen playlist (`target`, '' for none) when its id is non-zero;
     * then the library reloads and the summary is built.
     */
    method HandleUpload(names: seq<string>, target: string, outcomes: seq<UploadOutcome>,
                        playlistsLoad: Option<seq<ClientPlaylist>>, songsLoad: Option<seq<ClientSong>>)
      returns (summary: UploadSummary)
      requires |outcomes| == |names|
      modifies this`requests, this`playlists, this`songs, this`filteredSongs
      ensures names == [] ==>
        summary == NothingSelected && requests == old(requests)
        && playlists == old(playlists) && songs == old(songs) && filteredSongs == old(filteredSongs)
      ensures names != [] ==>
        && requests == old(requests) + UploadTraffic(names, outcomes, target)
        && summary == Summarize(Uploaded(outcomes), |names|, UploadErrors(names, outcomes))
        && playlists == playlistsLoad.GetOr(old(playlists))
        && songs == songsLoad.GetOr(old(songs))
        && filteredSongs == songsLoad.GetOr(old(filteredSongs))
      ensures names != [] && (forall k :: 0 <= k < |outcomes| ==> outcomes[k].Stored?) ==> summary == AllUploaded(|names|)
      ensures names != [] && summary.SomeFailed? ==> summary.uploaded + |UploadErrors(names, outcomes)| == summary.total
    {
      if |names| == 0 {
        return NothingSelected;
      }
      var uploadedCount := 0;
      var errors := [];
      for i := 0 to |names|
        invariant uploadedCount + |errors| == i
        invariant uploadedCount == Uploaded(outcomes[..i])
        invariant errors == UploadErrors(names[..i], outcomes[..i])
        invariant requests == old(requests) + UploadTraffic(names[..i], outcomes[..i], target)
        invariant playlists == old(playlists) && songs == old(songs) && filteredSongs == old(filteredSongs)
      {
        assert outcomes[..i + 1][..i] == outcomes[..i];
        assert names[..i + 1][..i] == names[..i];
        requests := requests + [UploadReq(names[i])];
        match outcomes[i]
        case Stored(songId) =>
          uploadedCount := uploadedCount + 1;
          if target != "" && songId != 0 {
            requests := requests + [AddToPlaylistReq(target, songId)];
          }
        case _ =>
          errors := errors + [FailureLine(names[i], outcomes[i])];
      }
      assert outcomes[..|names|] == outcomes;
      assert names[..|names|] == names;
      UploadAccounting(names, outcomes);
      RefreshLibrary(playlistsLoad, songsLoad);
      summary := Summarize(uploadedCount, |names|, errors);
    }

    /** `handleCreatePlaylist`: an empty name is refused before any request. */
    method HandleCreatePlaylist(name: string, description: string, ok: bool,
                                playlistsLoad: Option<seq<ClientPlaylist>>, songsLoad: Option<seq<ClientSong>>)
      modifies this`requests, this`playlists, this`songs, this`filteredSongs
      ensures name == "" ==> requests == old(requests)
      ensures name != "" ==> requests == old(requests) + [CreatePlaylistReq(name, description)]
      ensures name != "" && ok ==>
        playlists == playlistsLoad.GetOr(old(playlists)) && songs == songsLoad.GetOr(old(songs))
        && filteredSongs == songsLoad.GetOr(old(filteredSongs))
      ensures name == "" || !ok ==>
        playlists == old(playlists) && songs == old(songs) && filteredSongs == old(filteredSongs)
    {
      if name == "" {
        return;
      }
      requests := requests + [CreatePlaylistReq(name, description)];
      if ok {
        RefreshLibrary(playlistsLoad, songsLoad);
      }
    }
  }

  /**
   * A switch never moves the cursor: after switching from a long view at
   * song 4 to a two-song view, "previous" lands on index 3, outside the
   * view, so `playSong` finds no song and nothing plays.
   */
  lemma StaleIndexAfterSwitch(d: Deck, countSent: bool, playOk: bool)
    requires d.index == 4
    ensures var view := [ClientSong(1, "A"), ClientSong(2, "B")];
      var r := PlayAt(d, view, PrevIndex(d.index, |view|), countSent, playOk);
      r.index == 3 && r == d.(index := 3)
  {
  }
}
