/**
 * The SQLite library store (`Database` in database.py): three tables held in
 * memory as sequences of rows in rowid order.
 *
 *   songs           one row per uploaded song, `id` assigned by AUTOINCREMENT
 *   playlists       one row per playlist, with the denormalised `song_count`
 *   playlist_songs  one row per (playlist, song) membership, with a position
 *
 * Every write method of the class assigns its tables from a function of the
 * old tables; the functions and the lemmas about them are below the class's
 * row types.  Timestamps (`CURRENT_TIMESTAMP`) are a `now` parameter.
 */
module LibraryStore {
  import opened Wrappers
  import opened Text
  import opened Sorting

  datatype SongRow = SongRow(
    id: int,
    title: string,
    artist: string,
    album: string,
    duration: int,
    filePath: string,
    fileSize: Option<int>,
    fileType: string,
    uploadedAt: int,
    playCount: int,
    lastPlayed: Option<int>)

  datatype PlaylistRow = PlaylistRow(id: int, name: string, description: string, createdAt: int, songCount: int)

  /** A row of playlist_songs. */
  datatype Link = Link(playlistId: int, songId: int, addedAt: int, position: int)

  /** A row of `get_playlist_songs`: every column of the song plus its position. */
  datatype PlaylistEntry = PlaylistEntry(song: SongRow, position: int)

  /** A row of the "most played" list: `SELECT title, artist, play_count`. */
  datatype PlayedRow = PlayedRow(title: string, artist: string, playCount: int)

  datatype LibraryStats = LibraryStats(
    totalSongs: nat,
    totalPlaylists: nat,
    totalStorage: int,
    mostPlayed: seq<PlayedRow>)

  /** The columns `get_all_songs` can be asked to order by once the request has been sanitised. */
  datatype SortColumn = Title | Artist | Album | Duration | UploadedAt | PlayCount

  datatype Direction = Asc | Desc

  // ---------------------------------------------------------------------------
  // Table invariants

  predicate SongIdBefore(a: SongRow, b: SongRow) { a.id < b.id }

  predicate PlaylistIdBefore(a: PlaylistRow, b: PlaylistRow) { a.id < b.id }

  /** The primary key (playlist_id, song_id) of playlist_songs. */
  predicate DistinctPair(a: Link, b: Link) {
    a.playlistId != b.playlistId || a.songId != b.songId
  }

  /** Within one playlist, later rows carry larger positions. */
  predicate PositionBefore(a: Link, b: Link) {
    a.playlistId == b.playlistId ==> a.position < b.position
  }

  /** Song ids ascend in rowid order and none exceeds the AUTOINCREMENT sequence value. */
  ghost predicate SongKeys(songs: seq<SongRow>, top: int) {
    && Pairwise(songs, SongIdBefore)
    && forall i :: 0 <= i < |songs| ==> 1 <= songs[i].id <= top
  }

  ghost predicate PlaylistKeys(playlists: seq<PlaylistRow>, top: int) {
    && Pairwise(playlists, PlaylistIdBefore)
    && forall i :: 0 <= i < |playlists| ==> 1 <= playlists[i].id <= top
  }

  ghost predicate LinksWellFormed(links: seq<Link>) {
    Pairwise(links, DistinctPair) && Pairwise(links, PositionBefore)
  }

  /** The song ids that belong to playlist `pid`. */
  ghost function Members(links: seq<Link>, pid: int): set<int> {
    set l | l in links && l.playlistId == pid :: l.songId
  }

  /** The denormalised `song_count` of every playlist equals its number of members. */
  ghost predicate CountsAgree(playlists: seq<PlaylistRow>, links: seq<Link>) {
    forall i :: 0 <= i < |playlists| ==> playlists[i].songCount == |Members(links, playlists[i].id)|
  }

  // ---------------------------------------------------------------------------
  // Lookups

  function SongKey(s: SongRow): int { s.id }

  function PlaylistKey(p: PlaylistRow): int { p.id }

  /** `SELECT * FROM songs WHERE id = ?` */
  function FindSong(songs: seq<SongRow>, id: int): Option<SongRow> {
    FindFirst(songs, SongKey, id)
  }

  /** The lookup looks at the first row, then at the rest. */
  lemma FindSongStep(songs: seq<SongRow>, id: int)
    requires songs != []
    ensures FindSong(songs, id) == if songs[0].id == id then Some(songs[0]) else FindSong(songs[1..], id)
  {
  }

  /** `SELECT * FROM playlists WHERE id = ?` */
  function FindPlaylist(playlists: seq<PlaylistRow>, id: int): Option<PlaylistRow> {
    FindFirst(playlists, PlaylistKey, id)
  }

  /** `SELECT 1 FROM playlist_songs WHERE playlist_id = ? AND song_id = ?` finds a row. */
  predicate HasPair(links: seq<Link>, pid: int, sid: int) {
    exists i :: 0 <= i < |links| && links[i].playlistId == pid && links[i].songId == sid
  }

  /** `SELECT position FROM playlist_songs WHERE playlist_id = ? AND song_id = ?` */
  function PositionOf(links: seq<Link>, pid: int, sid: int): (r: Option<int>)
    ensures r.None? <==> !HasPair(links, pid, sid)
    ensures r.Some? ==> exists i :: 0 <= i < |links| && links[i] == Link(pid, sid, links[i].addedAt, r.value)
  {
    if links == [] then None
    else if links[0].playlistId == pid && links[0].songId == sid then Some(links[0].position)
    else
      var r := PositionOf(links[1..], pid, sid);
      assert HasPair(links, pid, sid) <==> HasPair(links[1..], pid, sid) by {
        if HasPair(links, pid, sid) {
          var i :| 0 <= i < |links| && links[i].playlistId == pid && links[i].songId == sid;
          assert links[1..][i - 1] == links[i];
        }
        if HasPair(links[1..], pid, sid) {
          var i :| 0 <= i < |links[1..]| && links[1..][i].playlistId == pid && links[1..][i].songId == sid;
          assert links[i + 1] == links[1..][i];
        }
      }
      assert r.Some? ==> exists i :: 0 <= i < |links| && links[i] == Link(pid, sid, links[i].addedAt, r.value) by {
        if r.Some? {
          var i :| 0 <= i < |links[1..]| && links[1..][i] == Link(pid, sid, links[1..][i].addedAt, r.value);
          assert links[i + 1] == links[1..][i];
        }
      }
      r
  }

  /** `SELECT MAX(position) FROM playlist_songs WHERE playlist_id = ?` (NULL when the playlist has no rows). */
  function MaxPosition(links: seq<Link>, pid: int): (m: Option<int>)
    ensures m.None? <==> forall i :: 0 <= i < |links| ==> links[i].playlistId != pid
    ensures m.Some? ==> forall i :: 0 <= i < |links| && links[i].playlistId == pid ==> links[i].position <= m.value
    ensures m.Some? ==> exists i :: 0 <= i < |links| && links[i].playlistId == pid && links[i].position == m.value
  {
    if links == [] then None
    else
      var rest := MaxPosition(links[1..], pid);
      assert forall i :: 1 <= i < |links| ==> links[i] == links[1..][i - 1];
      if links[0].playlistId != pid then
        assert rest.Some? ==> exists i :: 0 <= i < |links| && links[i].playlistId == pid && links[i].position == rest.value by {
          if rest.Some? {
            var i :| 0 <= i < |links[1..]| && links[1..][i].playlistId == pid && links[1..][i].position == rest.value;
            assert links[i + 1] == links[1..][i];
          }
        }
        rest
      else if rest.None? || rest.value < links[0].position then Some(links[0].position)
      else
        assert exists i :: 0 <= i < |links| && links[i].playlistId == pid && links[i].position == rest.value by {
          var i :| 0 <= i < |links[1..]| && links[1..][i].playlistId == pid && links[1..][i].position == rest.value;
          assert links[i + 1] == links[1..][i];
        }
        rest
  }

  /** `SELECT COALESCE(MAX(position), 0) + 1 FROM playlist_songs WHERE playlist_id = ?` */
  function NextPosition(links: seq<Link>, pid: int): int {
    MaxPosition(links, pid).GetOr(0) + 1
  }

  /** A new member goes after every member the playlist has, and position 1 starts an empty playlist. */
  lemma NextPositionAfterMembers(links: seq<Link>, pid: int)
    ensures forall i :: 0 <= i < |links| && links[i].playlistId == pid ==> links[i].position < NextPosition(links, pid)
    ensures Members(links, pid) == {} ==> NextPosition(links, pid) == 1
  {
    forall i | 0 <= i < |links| && links[i].playlistId == pid ensures links[i].songId in Members(links, pid) {
      assert links[i] in links;
    }
  }

  // ---------------------------------------------------------------------------
  // Row updates

  function Bumped(s: SongRow, now: int): SongRow {
    s.(playCount := s.playCount + 1, lastPlayed := Some(now))
  }

  /** `UPDATE songs SET play_count = play_count + 1, last_played = ? WHERE id = ?` */
  function BumpPlayCount(songs: seq<SongRow>, id: int, now: int): seq<SongRow> {
    seq(|songs|, i requires 0 <= i < |songs| => if songs[i].id == id then Bumped(songs[i], now) else songs[i])
  }

  /**
   * Bumping a song's play count raises that song's count by exactly one and
   * stamps it, leaves every other row as it was, and changes nothing for an
   * unknown id.
   */
  lemma {:induction false} BumpPlayCountEffect(songs: seq<SongRow>, id: int, now: int)
    ensures var r := BumpPlayCount(songs, id, now);
      && (forall other :: other != id ==> FindSong(r, other) == FindSong(songs, other))
      && FindSong(r, id) == (if FindSong(songs, id).Some? then Some(Bumped(FindSong(songs, id).value, now)) else None)
      && (FindSong(songs, id).None? ==> r == songs)
      && (Pairwise(songs, SongIdBefore) ==> Pairwise(r, SongIdBefore))
  {
    var r := BumpPlayCount(songs, id, now);
    if songs != [] {
      BumpPlayCountEffect(songs[1..], id, now);
      assert r[1..] == BumpPlayCount(songs[1..], id, now);
      forall x
        ensures FindSong(r, x) == if r[0].id == x then Some(r[0]) else FindSong(r[1..], x)
        ensures FindSong(songs, x) == if songs[0].id == x then Some(songs[0]) else FindSong(songs[1..], x)
      {
        FindSongStep(r, x);
        FindSongStep(songs, x);
      }
    }
  }

  /** `UPDATE playlists SET song_count = song_count + delta WHERE id = ?` */
  function AdjustSongCount(playlists: seq<PlaylistRow>, pid: int, delta: int): seq<PlaylistRow> {
    seq(|playlists|, i requires 0 <= i < |playlists| =>
      if playlists[i].id == pid then playlists[i].(songCount := playlists[i].songCount + delta) else playlists[i])
  }

  /** `UPDATE playlist_songs SET position = position - 1 WHERE playlist_id = ? AND position > above` */
  function ShiftDown(links: seq<Link>, pid: int, above: int): seq<Link> {
    seq(|links|, i requires 0 <= i < |links| =>
      if links[i].playlistId == pid && links[i].position > above then links[i].(position := links[i].position - 1)
      else links[i])
  }

  /** The number of rows `ShiftDown` changes: the UPDATE's rowcount. */
  function CountAbove(links: seq<Link>, pid: int, above: int): nat {
    if links == [] then 0
    else (if links[0].playlistId == pid && links[0].position > above then 1 else 0) + CountAbove(links[1..], pid, above)
  }

  /**
   * The position-shift UPDATE of remove_song_from_playlist, whose threshold
   * is a sub-select of the pair's own position: with no such row the
   * comparison is NULL, so nothing is updated.  Returns the new rows and the
   * rowcount.
   */
  function ShiftAfter(links: seq<Link>, pid: int, sid: int): (seq<Link>, nat) {
    match PositionOf(links, pid, sid)
    case None => (links, 0)
    case Some(p) => (ShiftDown(links, pid, p), CountAbove(links, pid, p))
  }

  // ---------------------------------------------------------------------------
  // Deletions

  function KeepSong(sid: int): SongRow -> bool {
    (s: SongRow) => s.id != sid
  }

  function KeepPlaylist(pid: int): PlaylistRow -> bool {
    (p: PlaylistRow) => p.id != pid
  }

  function KeepUnlessSong(sid: int): Link -> bool {
    (l: Link) => l.songId != sid
  }

  function KeepUnlessPair(pid: int, sid: int): Link -> bool {
    (l: Link) => l.playlistId != pid || l.songId != sid
  }

  /** `DELETE FROM songs WHERE id = ?` */
  function DropSong(songs: seq<SongRow>, sid: int): (r: seq<SongRow>)
    ensures forall s :: s in r <==> s in songs && s.id != sid
    ensures Pairwise(songs, SongIdBefore) ==> Pairwise(r, SongIdBefore)
  {
    FilterPairwise(songs, KeepSong(sid), SongIdBefore);
    Filter(songs, KeepSong(sid))
  }

  /** `DELETE FROM playlists WHERE id = ?` */
  function DropPlaylist(playlists: seq<PlaylistRow>, pid: int): (r: seq<PlaylistRow>)
    ensures forall p :: p in r <==> p in playlists && p.id != pid
    ensures Pairwise(playlists, PlaylistIdBefore) ==> Pairwise(r, PlaylistIdBefore)
  {
    FilterPairwise(playlists, KeepPlaylist(pid), PlaylistIdBefore);
    Filter(playlists, KeepPlaylist(pid))
  }

  /** `DELETE FROM playlist_songs WHERE song_id = ?` */
  function DropSongLinks(links: seq<Link>, sid: int): (r: seq<Link>)
    ensures forall l :: l in r <==> l in links && l.songId != sid
    ensures LinksWellFormed(links) ==> LinksWellFormed(r)
  {
    FilterPairwise(links, KeepUnlessSong(sid), DistinctPair);
    FilterPairwise(links, KeepUnlessSong(sid), PositionBefore);
    Filter(links, KeepUnlessSong(sid))
  }

  /** `DELETE FROM playlist_songs WHERE playlist_id = ? AND song_id = ?` */
  function DropPair(links: seq<Link>, pid: int, sid: int): (r: seq<Link>)
    ensures forall l :: l in r <==> l in links && (l.playlistId != pid || l.songId != sid)
    ensures LinksWellFormed(links) ==> LinksWellFormed(r)
    ensures !HasPair(r, pid, sid)
  {
    FilterPairwise(links, KeepUnlessPair(pid, sid), DistinctPair);
    FilterPairwise(links, KeepUnlessPair(pid, sid), PositionBefore);
    var r := Filter(links, KeepUnlessPair(pid, sid));
    assert !HasPair(r, pid, sid) by {
      forall i | 0 <= i < |r| ensures r[i].playlistId != pid || r[i].songId != sid {
        assert r[i] in r;
      }
    }
    r
  }

  // ---------------------------------------------------------------------------
  // Reads

  /** Entry `e` is the join of some member row of playlist `pid` with its song. */
  ghost predicate JoinedFrom(links: seq<Link>, songs: seq<SongRow>, pid: int, e: PlaylistEntry) {
    exists l :: l in links && l.playlistId == pid && FindSong(songs, l.songId) == Some(e.song) && e.position == l.position
  }

  /**
   * `SELECT s.*, ps.position FROM songs s JOIN playlist_songs ps ON s.id = ps.song_id
   *  WHERE ps.playlist_id = ?`, rows taken in rowid order of playlist_songs.
   */
  function JoinMembers(links: seq<Link>, songs: seq<SongRow>, pid: int): seq<PlaylistEntry> {
    if links == [] then []
    else if links[0].playlistId == pid && FindSong(songs, links[0].songId).Some? then
      [PlaylistEntry(FindSong(songs, links[0].songId).value, links[0].position)] + JoinMembers(links[1..], songs, pid)
    else JoinMembers(links[1..], songs, pid)
  }

  /** The join yields exactly the member rows of the playlist whose song row still exists. */
  lemma {:induction false} JoinMembersExact(links: seq<Link>, songs: seq<SongRow>, pid: int)
    ensures forall e :: e in JoinMembers(links, songs, pid) ==> JoinedFrom(links, songs, pid, e)
    ensures forall l :: l in links && l.playlistId == pid && FindSong(songs, l.songId).Some? ==>
      PlaylistEntry(FindSong(songs, l.songId).value, l.position) in JoinMembers(links, songs, pid)
  {
    if links != [] {
      JoinMembersExact(links[1..], songs, pid);
      var rest := JoinMembers(links[1..], songs, pid);
      forall e | e in rest ensures JoinedFrom(links, songs, pid, e) {
        var l :| l in links[1..] && l.playlistId == pid && FindSong(songs, l.songId) == Some(e.song) && e.position == l.position;
        assert l in links;
      }
      forall l | l in links && l.playlistId == pid && FindSong(songs, l.songId).Some?
        ensures PlaylistEntry(FindSong(songs, l.songId).value, l.position) in JoinMembers(links, songs, pid)
      {
        if l != links[0] {
          assert l in links[1..];
        }
      }
    }
  }

  /** Rows come out by strictly ascending position, which is `ORDER BY ps.position`. */
  lemma {:induction false} JoinMembersAscending(links: seq<Link>, songs: seq<SongRow>, pid: int)
    requires Pairwise(links, PositionBefore)
    ensures forall i, j :: 0 <= i < j < |JoinMembers(links, songs, pid)| ==>
      JoinMembers(links, songs, pid)[i].position < JoinMembers(links, songs, pid)[j].position
  {
    if links != [] {
      var rest := JoinMembers(links[1..], songs, pid);
      assert Pairwise(links[1..], PositionBefore);
      JoinMembersAscending(links[1..], songs, pid);
      JoinMembersExact(links[1..], songs, pid);
      var l := links[0];
      if l.playlistId == pid && FindSong(songs, l.songId).Some? {
        var r := JoinMembers(links, songs, pid);
        forall j | 0 < j < |r| ensures r[0].position < r[j].position {
          assert r[j] == rest[j - 1] && r[j] in rest;
          var m :| m in links[1..] && m.playlistId == pid && FindSong(songs, m.songId) == Some(r[j].song) && r[j].position == m.position;
          var k :| 0 <= k < |links[1..]| && links[1..][k] == m;
          assert PositionBefore(links[0], links[k + 1]);
        }
        forall i, j | 0 <= i < j < |r| ensures r[i].position < r[j].position {
          if i > 0 {
            assert r[i] == rest[i - 1] && r[j] == rest[j - 1];
          }
        }
      }
    }
  }

  /** Ascending title, as `ORDER BY title ASC`. */
  predicate TitleLe(a: SongRow, b: SongRow) { StrLe(a.title, b.title) }

  /** Descending play count, as `ORDER BY play_count DESC`. */
  predicate PlayCountDesc(a: SongRow, b: SongRow) { a.playCount >= b.playCount }

  predicate NameLe(a: PlaylistRow, b: PlaylistRow) { StrLe(a.name, b.name) }

  predicate KeyLe(col: SortColumn, a: SongRow, b: SongRow) {
    match col
    case Title => StrLe(a.title, b.title)
    case Artist => StrLe(a.artist, b.artist)
    case Album => StrLe(a.album, b.album)
    case Duration => a.duration <= b.duration
    case UploadedAt => a.uploadedAt <= b.uploadedAt
    case PlayCount => a.playCount <= b.playCount
  }

  /** `ORDER BY <col> <dir>` */
  function ColumnLe(col: SortColumn, dir: Direction): (SongRow, SongRow) -> bool {
    (a: SongRow, b: SongRow) => if dir == Asc then KeyLe(col, a, b) else KeyLe(col, b, a)
  }

  lemma StrLeTotalPreorder()
    ensures forall a, b :: StrLe(a, b) || StrLe(b, a)
    ensures forall a, b, c :: StrLe(a, b) && StrLe(b, c) ==> StrLe(a, c)
  {
    forall a, b ensures StrLe(a, b) || StrLe(b, a) {
      StrLeTotal(a, b);
    }
    forall a, b, c | StrLe(a, b) && StrLe(b, c) ensures StrLe(a, c) {
      StrLeTransitive(a, b, c);
    }
  }

  /** Every column ordering the server can request is a total preorder on rows. */
  lemma ColumnLeTotalPreorder(col: SortColumn, dir: Direction)
    ensures TotalPreorder(ColumnLe(col, dir))
  {
    StrLeTotalPreorder();
  }

  lemma OrderingsTotal()
    ensures TotalPreorder(TitleLe) && TotalPreorder(PlayCountDesc) && TotalPreorder(NameLe)
  {
    StrLeTotalPreorder();
  }

  /** `SELECT COALESCE(SUM(file_size), 0) FROM songs`: NULL sizes add nothing, an empty table gives 0. */
  function TotalStorage(songs: seq<SongRow>): int {
    if songs == [] then 0 else songs[0].fileSize.GetOr(0) + TotalStorage(songs[1..])
  }

  /** Adding a row adds its size (0 when NULL) to the total. */
  lemma {:induction false} TotalStorageAppend(songs: seq<SongRow>, s: SongRow)
    ensures TotalStorage(songs + [s]) == TotalStorage(songs) + s.fileSize.GetOr(0)
  {
    if songs != [] {
      assert (songs + [s])[1..] == songs[1..] + [s];
      TotalStorageAppend(songs[1..], s);
    }
  }

  /** With no negative sizes the total is not negative, and it bounds every single size. */
  lemma {:induction false} TotalStorageBounds(songs: seq<SongRow>)
    requires forall i :: 0 <= i < |songs| ==> songs[i].fileSize.GetOr(0) >= 0
    ensures TotalStorage(songs) >= 0
    ensures forall i :: 0 <= i < |songs| ==> songs[i].fileSize.GetOr(0) <= TotalStorage(songs)
  {
    if songs != [] {
      TotalStorageBounds(songs[1..]);
      forall i | 1 <= i < |songs| ensures songs[i].fileSize.GetOr(0) <= TotalStorage(songs) {
        assert songs[i] == songs[1..][i - 1];
      }
    }
  }

  /** `SELECT ... FROM songs ORDER BY play_count DESC LIMIT 5` */
  function TopPlayed(songs: seq<SongRow>): seq<SongRow> {
    var sorted := SortBy(songs, PlayCountDesc);
    sorted[..if |songs| < 5 then |songs| else 5]
  }

  /**
   * The most-played list holds at most five rows of the table, by descending
   * play count, and no row left out was played more than any row listed.
   */
  lemma TopPlayedMost(songs: seq<SongRow>)
    ensures var top := TopPlayed(songs);
      && |top| == (if |songs| < 5 then |songs| else 5)
      && (forall i, j :: 0 <= i < j < |top| ==> top[i].playCount >= top[j].playCount)
      && multiset(top) <= multiset(songs)
      && (forall s, i :: s in songs && s !in top && 0 <= i < |top| ==> s.playCount <= top[i].playCount)
  {
    var sorted := SortBy(songs, PlayCountDesc);
    OrderingsTotal();
    SortBySorted(songs, PlayCountDesc);
    var n := if |songs| < 5 then |songs| else 5;
    var top := sorted[..n];
    assert sorted == top + sorted[n..];
    assert multiset(sorted) == multiset(top) + multiset(sorted[n..]);
    forall i, j | 0 <= i < j < |top| ensures top[i].playCount >= top[j].playCount {
      assert PlayCountDesc(sorted[i], sorted[j]);
    }
    forall s, i | s in songs && s !in top && 0 <= i < |top| ensures s.playCount <= top[i].playCount {
      assert s in multiset(songs);
      assert s in multiset(sorted[n..]);
      var k :| 0 <= k < |sorted[n..]| && sorted[n..][k] == s;
      assert sorted[n + k] == s && PlayCountDesc(sorted[i], sorted[n + k]);
    }
  }

  function Played(s: SongRow): PlayedRow {
    PlayedRow(s.title, s.artist, s.playCount)
  }

  /** ASCII case-insensitive `LIKE '%q%'` against title, artist or album. */
  function Matches(q: string): SongRow -> bool {
    (s: SongRow) => Contains(Lower(s.title), Lower(q)) || Contains(Lower(s.artist), Lower(q)) || Contains(Lower(s.album), Lower(q))
  }

  // ---------------------------------------------------------------------------
  // The store

  class Database {
    var songs: seq<SongRow>
    var playlists: seq<PlaylistRow>
    var links: seq<Link>
    /** The AUTOINCREMENT sequence values: the largest id ever issued in each table. */
    var songSeq: int
    var playlistSeq: int

    ghost predicate Valid()
      reads this
    {
      && 0 <= songSeq && 0 <= playlistSeq
      && SongKeys(songs, songSeq)
      && PlaylistKeys(playlists, playlistSeq)
      && LinksWellFormed(links)
    }

    /** A freshly created database file: the three CREATE TABLE statements of `init_db`. */
    constructor ()
      ensures Valid()
      ensures songs == [] && playlists == [] && links == []
      ensures songSeq == 0 && playlistSeq == 0
    {
      songs, playlists, links := [], [], [];
      songSeq, playlistSeq := 0, 0;
    }

    /** `add_song`: inserts a row with play count 0 and returns its fresh id. */
    method AddSong(title: string, artist: string, album: string, duration: int, filePath: string,
                   fileSize: Option<int>, fileType: string, now: int) returns (id: int)
      requires Valid()
      modifies this`songs, this`songSeq
      ensures Valid()
      ensures id == old(songSeq) + 1 && songSeq == id
      ensures forall i :: 0 <= i < |old(songs)| ==> old(songs)[i].id < id
      ensures songs == old(songs) + [SongRow(id, title, artist, album, duration, filePath, fileSize, fileType, now, 0, None)]
    {
      id := songSeq + 1;
      songs := songs + [SongRow(id, title, artist, album, duration, filePath, fileSize, fileType, now, 0, None)];
      songSeq := id;
    }

    /** `update_play_count` */
    method UpdatePlayCount(songId: int, now: int)
      requires Valid()
      modifies this`songs
      ensures Valid()
      ensures songs == BumpPlayCount(old(songs), songId, now)
    {
      BumpPlayCountEffect(songs, songId, now);
      songs := BumpPlayCount(songs, songId, now);
    }

    /** `delete_song`: drops the song's memberships, then the song; playlist counts are not touched. */
    method DeleteSong(songId: int) returns (deleted: bool)
      requires Valid()
      modifies this`songs, this`links
      ensures Valid()
      ensures deleted <==> FindSong(old(songs), songId).Some?
      ensures links == DropSongLinks(old(links), songId)
      ensures songs == DropSong(old(songs), songId)
    {
      links := DropSongLinks(links, songId);
      deleted := FindSong(songs, songId).Some?;
      songs := DropSong(songs, songId);
    }

    /** `create_playlist` */
    method CreatePlaylist(name: string, description: string, now: int) returns (id: int)
      requires Valid()
      modifies this`playlists, this`playlistSeq
      ensures Valid()
      ensures id == old(playlistSeq) + 1 && playlistSeq == id
      ensures forall i :: 0 <= i < |old(playlists)| ==> old(playlists)[i].id < id
      ensures playlists == old(playlists) + [PlaylistRow(id, name, description, now, 0)]
    {
      id := playlistSeq + 1;
      playlists := playlists + [PlaylistRow(id, name, description, now, 0)];
      playlistSeq := id;
    }

    /**
     * `delete_playlist`: removes the playlists row only.  The ON DELETE
     * CASCADE of playlist_songs needs `PRAGMA foreign_keys`, which is never
     * enabled, so the memberships stay.
     */
    method DeletePlaylist(pid: int) returns (deleted: bool)
      requires Valid()
      modifies this`playlists
      ensures Valid()
      ensures deleted <==> FindPlaylist(old(playlists), pid).Some?
      ensures playlists == DropPlaylist(old(playlists), pid)
    {
      deleted := FindPlaylist(playlists, pid).Some?;
      playlists := DropPlaylist(playlists, pid);
    }

    /**
     * `add_song_to_playlist`: refuses an existing pair; otherwise appends the
     * song after the playlist's last position and counts it.  Neither id is
     * checked against its table.
     */
    method AddSongToPlaylist(pid: int, sid: int, now: int) returns (added: bool)
      requires Valid()
      modifies this`links, this`playlists
      ensures Valid()
      ensures added <==> !HasPair(old(links), pid, sid)
      ensures !added ==> links == old(links) && playlists == old(playlists)
      ensures added ==> links == old(links) + [Link(pid, sid, now, NextPosition(old(links), pid))]
      ensures added ==> playlists == AdjustSongCount(old(playlists), pid, 1)
    {
      if HasPair(links, pid, sid) {
        return false;
      }
      var l := Link(pid, sid, now, NextPosition(links, pid));
      NextPositionAfterMembers(links, pid);
      AppendKeepsWellFormed(links, l);
      links := links + [l];
      playlists := AdjustSongCount(playlists, pid, 1);
      added := true;
    }

    /**
     * `remove_song_from_playlist` as written: deletes the pair, decrements
     * the count whether or not a row was deleted, then runs the shift UPDATE
     * whose sub-select looks up the pair just deleted, and reports that
     * UPDATE's rowcount.
     */
    method RemoveSongFromPlaylist(pid: int, sid: int) returns (removed: bool)
      requires Valid()
      modifies this`links, this`playlists
      ensures Valid()
      ensures links == DropPair(old(links), pid, sid)
      ensures playlists == AdjustSongCount(old(playlists), pid, -1)
      ensures !removed
    {
      links := DropPair(links, pid, sid);
      playlists := AdjustSongCount(playlists, pid, -1);
      var shifted, rowcount := ShiftAfter(links, pid, sid).0, ShiftAfter(links, pid, sid).1;
      ShiftAfterDeletedPair(links, pid, sid);
      links := shifted;
      removed := rowcount > 0;
    }

    /**
     * remove_song_from_playlist as evidently intended: reads the pair's
     * position before deleting it, changes nothing when the pair is absent,
     * and otherwise decrements the count and closes the gap.
     */
    method RemoveSongFromPlaylistFixed(pid: int, sid: int) returns (removed: bool)
      requires Valid()
      modifies this`links, this`playlists
      ensures Valid()
      ensures removed <==> HasPair(old(links), pid, sid)
      ensures (links, playlists) == RemovePairFixed(old(links), old(playlists), pid, sid)
    {
      match PositionOf(links, pid, sid)
      case None =>
        removed := false;
      case Some(p) =>
        RemoveFixedWellFormed(links, pid, sid, p);
        links := ShiftDown(DropPair(links, pid, sid), pid, p);
        playlists := AdjustSongCount(playlists, pid, -1);
        removed := true;
    }

    /** `get_song` */
    function GetSong(id: int): (r: Option<SongRow>)
      reads this
      requires Valid()
      ensures r.Some? <==> exists i :: 0 <= i < |songs| && songs[i].id == id
      ensures r.Some? ==> r.value in songs && r.value.id == id
    {
      FindSong(songs, id)
    }

    /** `get_playlist` */
    function GetPlaylist(id: int): (r: Option<PlaylistRow>)
      reads this
      requires Valid()
      ensures r.Some? <==> exists i :: 0 <= i < |playlists| && playlists[i].id == id
      ensures r.Some? ==> r.value in playlists && r.value.id == id
    {
      FindPlaylist(playlists, id)
    }

    /** `get_all_songs` with an already whitelisted column and direction. */
    function AllSongs(col: SortColumn, dir: Direction): (r: seq<SongRow>)
      reads this
      ensures multiset(r) == multiset(songs)
      ensures Pairwise(r, ColumnLe(col, dir))
    {
      ColumnLeTotalPreorder(col, dir);
      SortBySorted(songs, ColumnLe(col, dir));
      SortBy(songs, ColumnLe(col, dir))
    }

    /** `search_songs`: matching rows ordered by title. */
    function Search(q: string): (r: seq<SongRow>)
      reads this
      ensures forall s :: s in r <==> s in songs && Matches(q)(s)
      ensures multiset(r) == multiset(Filter(songs, Matches(q)))
      ensures Pairwise(r, TitleLe)
    {
      var hits := Filter(songs, Matches(q));
      OrderingsTotal();
      SortBySorted(hits, TitleLe);
      assert forall s :: s in SortBy(hits, TitleLe) <==> s in multiset(hits);
      SortBy(hits, TitleLe)
    }

    /** `get_all_playlists`: every playlist, ordered by name. */
    function AllPlaylists(): (r: seq<PlaylistRow>)
      reads this
      ensures multiset(r) == multiset(playlists)
      ensures Pairwise(r, NameLe)
    {
      OrderingsTotal();
      SortBySorted(playlists, NameLe);
      SortBy(playlists, NameLe)
    }

    /** `get_playlist_songs`: exactly the playlist's members that still have a song row, by ascending position. */
    function PlaylistSongs(pid: int): (r: seq<PlaylistEntry>)
      reads this
      requires Valid()
      ensures forall e :: e in r ==> exists l :: l in links && l.playlistId == pid && FindSong(songs, l.songId) == Some(e.song) && e.position == l.position
      ensures forall l :: l in links && l.playlistId == pid && FindSong(songs, l.songId).Some? ==> PlaylistEntry(FindSong(songs, l.songId).value, l.position) in r
      ensures forall i, j :: 0 <= i < j < |r| ==> r[i].position < r[j].position
    {
      JoinMembersExact(links, songs, pid);
      JoinMembersAscending(links, songs, pid);
      JoinMembers(links, songs, pid)
    }

    /** `get_library_stats`: the two row counts, the storage total and the five most played songs. */
    function Stats(): (r: LibraryStats)
      reads this
      ensures r.totalSongs == |songs| && r.totalPlaylists == |playlists|
      ensures r.totalStorage == TotalStorage(songs)
      ensures |r.mostPlayed| == if |songs| < 5 then |songs| else 5
      ensures forall i :: 0 <= i < |r.mostPlayed| ==> r.mostPlayed[i] == Played(TopPlayed(songs)[i])
      ensures forall i, j :: 0 <= i < j < |r.mostPlayed| ==> r.mostPlayed[i].playCount >= r.mostPlayed[j].playCount
    {
      var top := TopPlayed(songs);
      TopPlayedMost(songs);
      LibraryStats(|songs|, |playlists|, TotalStorage(songs), seq(|top|, i requires 0 <= i < |top| => Played(top[i])))
    }
  }

  // ---------------------------------------------------------------------------
  // Lemmas about the write operations

  lemma AppendKeepsWellFormed(links: seq<Link>, l: Link)
    requires LinksWellFormed(links)
    requires !HasPair(links, l.playlistId, l.songId)
    requires forall i :: 0 <= i < |links| && links[i].playlistId == l.playlistId ==> links[i].position < l.position
    ensures LinksWellFormed(links + [l])
  {
    var r := links + [l];
    forall i, j | 0 <= i < j < |r| ensures DistinctPair(r[i], r[j]) && PositionBefore(r[i], r[j]) {
      if j == |links| {
        assert r[i] == links[i];
      }
    }
  }

  /**
   * The shift UPDATE of remove_song_from_playlist, run after the DELETE of
   * the same pair, finds no threshold and updates nothing: positions never
   * close up and the method's `rowcount > 0` is always false.
   */
  lemma ShiftAfterDeletedPair(links: seq<Link>, pid: int, sid: int)
    ensures ShiftAfter(DropPair(links, pid, sid), pid, sid) == (DropPair(links, pid, sid), 0)
  {
  }

  /** Concrete case: removing a present member still reports failure and leaves the next member at position 2. */
  lemma RemoveReportsFailureExample()
    ensures var links := [Link(1, 7, 0, 1), Link(1, 8, 0, 2)];
      && HasPair(links, 1, 7)
      && ShiftAfter(DropPair(links, 1, 7), 1, 7).1 == 0
      && ShiftAfter(DropPair(links, 1, 7), 1, 7).0 == [Link(1, 8, 0, 2)]
  {
    var links := [Link(1, 7, 0, 1), Link(1, 8, 0, 2)];
    assert links[0].playlistId == 1 && links[0].songId == 7;
    var d := DropPair(links, 1, 7);
    assert Link(1, 8, 0, 2) in d;
    assert forall l :: l in d ==> l == Link(1, 8, 0, 2);
    assert d == [Link(1, 8, 0, 2)] by {
      assert |d| <= 2;
    }
    ShiftAfterDeletedPair(links, 1, 7);
  }

  /** The fixed removal as a function of the tables: (playlist_songs, playlists) afterwards. */
  function RemovePairFixed(links: seq<Link>, playlists: seq<PlaylistRow>, pid: int, sid: int): (seq<Link>, seq<PlaylistRow>) {
    match PositionOf(links, pid, sid)
    case None => (links, playlists)
    case Some(p) => (ShiftDown(DropPair(links, pid, sid), pid, p), AdjustSongCount(playlists, pid, -1))
  }

  lemma RemoveFixedWellFormed(links: seq<Link>, pid: int, sid: int, p: int)
    requires LinksWellFormed(links)
    requires PositionOf(links, pid, sid) == Some(p)
    ensures LinksWellFormed(ShiftDown(DropPair(links, pid, sid), pid, p))
  {
    var d := DropPair(links, pid, sid);
    var r := ShiftDown(d, pid, p);
    var k :| 0 <= k < |links| && links[k] == Link(pid, sid, links[k].addedAt, p);
    // no remaining member of pid sits at position p
    forall i | 0 <= i < |d| && d[i].playlistId == pid ensures d[i].position != p {
      assert d[i] in d;
      var m :| 0 <= m < |links| && links[m] == d[i];
      assert m != k;
      if m < k {
        assert PositionBefore(links[m], links[k]);
      } else {
        assert PositionBefore(links[k], links[m]);
      }
    }
    forall i, j | 0 <= i < j < |r| ensures DistinctPair(r[i], r[j]) && PositionBefore(r[i], r[j]) {
      assert DistinctPair(d[i], d[j]) && PositionBefore(d[i], d[j]);
    }
  }

  /** Shifting positions keeps every (playlist, song) pair. */
  lemma ShiftDownMembers(links: seq<Link>, pid: int, above: int, q: int)
    ensures Members(ShiftDown(links, pid, above), q) == Members(links, q)
  {
    var r := ShiftDown(links, pid, above);
    forall s | s in Members(links, q) ensures s in Members(r, q) {
      var l :| l in links && l.playlistId == q && l.songId == s;
      var i :| 0 <= i < |links| && links[i] == l;
      assert r[i] in r;
    }
    forall s | s in Members(r, q) ensures s in Members(links, q) {
      var l :| l in r && l.playlistId == q && l.songId == s;
      var i :| 0 <= i < |r| && r[i] == l;
      assert links[i] in links;
    }
  }

  lemma AdjustSongCountAt(playlists: seq<PlaylistRow>, pid: int, delta: int, i: int)
    requires 0 <= i < |playlists|
    ensures |AdjustSongCount(playlists, pid, delta)| == |playlists|
    ensures AdjustSongCount(playlists, pid, delta)[i].id == playlists[i].id
    ensures AdjustSongCount(playlists, pid, delta)[i].songCount == playlists[i].songCount + (if playlists[i].id == pid then delta else 0)
  {
  }

  /** Adding a new member keeps every playlist's `song_count` equal to its number of members. */
  lemma AddKeepsCountsAgree(playlists: seq<PlaylistRow>, links: seq<Link>, l: Link)
    requires CountsAgree(playlists, links)
    requires !HasPair(links, l.playlistId, l.songId)
    ensures CountsAgree(AdjustSongCount(playlists, l.playlistId, 1), links + [l])
  {
    var ps := AdjustSongCount(playlists, l.playlistId, 1);
    forall i | 0 <= i < |ps| ensures ps[i].songCount == |Members(links + [l], ps[i].id)| {
      var q := playlists[i].id;
      AdjustSongCountAt(playlists, l.playlistId, 1, i);
      if q == l.playlistId {
        assert Members(links + [l], q) == Members(links, q) + {l.songId};
        assert l.songId !in Members(links, q);
      } else {
        assert Members(links + [l], q) == Members(links, q);
      }
    }
  }

  /** The fixed removal keeps every playlist's `song_count` equal to its number of members. */
  lemma RemoveFixedKeepsCountsAgree(playlists: seq<PlaylistRow>, links: seq<Link>, pid: int, sid: int)
    requires CountsAgree(playlists, links)
    ensures CountsAgree(RemovePairFixed(links, playlists, pid, sid).1, RemovePairFixed(links, playlists, pid, sid).0)
  {
    match PositionOf(links, pid, sid)
    case None =>
    case Some(p) =>
      var d := DropPair(links, pid, sid);
      var ps := AdjustSongCount(playlists, pid, -1);
      forall i | 0 <= i < |ps| ensures ps[i].songCount == |Members(ShiftDown(d, pid, p), ps[i].id)| {
        var q := playlists[i].id;
        AdjustSongCountAt(playlists, pid, -1, i);
        ShiftDownMembers(d, pid, p, q);
        if q == pid {
          assert Members(d, q) == Members(links, q) - {sid};
          var k :| 0 <= k < |links| && links[k] == Link(pid, sid, links[k].addedAt, p);
          assert sid in Members(links, q) by {
            assert links[k] in links;
          }
        } else {
          assert Members(d, q) == Members(links, q);
        }
      }
  }

  /** Removing an absent pair as written still decrements: the count no longer matches the members. */
  lemma RemoveAbsentBreaksCounts()
    ensures var playlists := [PlaylistRow(1, "Mix", "", 0, 1)];
      var links := [Link(1, 7, 0, 1)];
      && CountsAgree(playlists, links)
      && !HasPair(links, 1, 9)
      && !CountsAgree(AdjustSongCount(playlists, 1, -1), DropPair(links, 1, 9))
  {
    var playlists := [PlaylistRow(1, "Mix", "", 0, 1)];
    var links := [Link(1, 7, 0, 1)];
    assert Members(links, 1) == {7} by {
      assert links[0] in links;
    }
    var d := DropPair(links, 1, 9);
    assert links[0] in d;
    assert Members(d, 1) == {7} by {
      assert d[0] in d;
    }
    assert AdjustSongCount(playlists, 1, -1)[0].songCount == 0;
  }

  /** delete_song removes memberships but leaves `song_count` alone, so the counts go stale. */
  lemma DeleteSongLeavesCountsStale()
    ensures var playlists := [PlaylistRow(1, "Mix", "", 0, 1)];
      var links := [Link(1, 7, 0, 1)];
      && CountsAgree(playlists, links)
      && !CountsAgree(playlists, DropSongLinks(links, 7))
  {
    var links := [Link(1, 7, 0, 1)];
    assert Members(links, 1) == {7} by {
      assert links[0] in links;
    }
    var playlists := [PlaylistRow(1, "Mix", "", 0, 1)];
    assert CountsAgree(playlists, links);
    var d := DropSongLinks(links, 7);
    assert KeepUnlessSong(7)(links[0]) == false;
    assert d == Filter(links[1..], KeepUnlessSong(7));
    assert links[1..] == [];
    assert Members(d, 1) == {};
    assert playlists[0].songCount != |Members(d, playlists[0].id)|;
  }
}
