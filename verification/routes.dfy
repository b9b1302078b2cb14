/**
 * The Flask request handlers of app.py and the helpers they use: the
 * extension whitelist, the unit choice of `format_file_size`, the sort
 * whitelist of `get_songs`, the guard cascades of `upload_song` and
 * `create_playlist`, the stored-file name, and the order of effects in
 * `play_song`.  The file system, the clock and werkzeug's `secure_filename`
 * are parameters of the handlers that use them.
 */
module Routes {
  import opened Wrappers
  import opened Text
  import opened LibraryStore

  /** An error body `{'error': message}` with its HTTP status. */
  datatype ApiError = ApiError(status: int, message: string)

  // ---------------------------------------------------------------------------
  // allowed_file

  const AllowedExtensions: set<string> := {"mp3", "mp4", "m4a", "wav", "flac", "ogg"}

  /** `s.rfind(c)`, with None for -1. */
  function LastIndex(s: string, c: char): (r: Option<nat>)
    ensures r.Some? ==> r.value < |s| && s[r.value] == c
  {
    if s == [] then None
    else if s[|s| - 1] == c then Some(|s| - 1)
    else LastIndex(s[..|s| - 1], c)
  }

  /** `rfind` finds the last occurrence, and -1 only when there is none. */
  lemma {:induction false} LastIndexMeaning(s: string, c: char)
    ensures LastIndex(s, c).Some? ==> forall j :: LastIndex(s, c).value < j < |s| ==> s[j] != c
    ensures LastIndex(s, c).None? ==> forall j :: 0 <= j < |s| ==> s[j] != c
  {
    if s != [] && s[|s| - 1] != c {
      LastIndexMeaning(s[..|s| - 1], c);
    }
  }

  /** Position `i` holds the last '.' of `s`. */
  predicate LastDotAt(s: string, i: int) {
    0 <= i < |s| && s[i] == '.' && forall j :: i < j < |s| ==> s[j] != '.'
  }

  /** `rfind('.')` finds exactly the last dot. */
  lemma LastDotFound(s: string)
    ensures forall i :: LastDotAt(s, i) <==> LastIndex(s, '.') == Some(i)
  {
    LastIndexMeaning(s, '.');
  }

  /** One of the six audio extensions, compared after lower-casing. */
  predicate AllowedExtension(ext: string) {
    Lower(ext) in AllowedExtensions
  }

  /**
   * `allowed_file`: the name has a '.', and the text after the last '.',
   * lower-cased, is one of the six audio extensions.
   */
  function AllowedFile(filename: string): bool {
    var dot := LastIndex(filename, '.');
    dot.Some? && AllowedExtension(filename[dot.value + 1..])
  }

  /** The check in terms of positions: some '.' is the last one and what follows it is an allowed extension. */
  lemma AllowedFileMeaning(filename: string)
    ensures AllowedFile(filename) <==> exists i :: LastDotAt(filename, i) && AllowedExtension(filename[i + 1..])
  {
    LastDotFound(filename);
  }

  lemma NoDotInExtensions(e: string)
    requires e in AllowedExtensions
    ensures '.' !in e
  {
    assert e == "mp3" || e == "mp4" || e == "m4a" || e == "wav" || e == "flac" || e == "ogg";
  }

  /** Any stem followed by '.' and a whitelisted extension, in any letter case, is accepted. */
  lemma AllowedWithExtension(stem: string, ext: string)
    requires AllowedExtension(ext)
    ensures AllowedFile(stem + "." + ext)
  {
    var low := Lower(ext);
    NoDotInExtensions(low);
    assert '.' !in ext by {
      forall j | 0 <= j < |ext| ensures ext[j] != '.' {
        assert low[j] == LowerChar(ext[j]);
        assert low[j] != '.';
      }
    }
    assert stem + "." + ext == stem + ['.'] + ext;
    LastIndexOfMarker(stem + "." + ext, stem, '.', ext);
    assert (stem + "." + ext)[|stem| + 1..] == ext;
  }

  /** Lower-casing moves no '.'. */
  lemma {:induction false} LastDotIgnoresCase(s: string)
    ensures LastIndex(Lower(s), '.') == LastIndex(s, '.')
  {
    if s != [] {
      var init := s[..|s| - 1];
      assert Lower(s)[..|s| - 1] == Lower(init);
      LastDotIgnoresCase(init);
    }
  }

  lemma LowerSuffix(s: string, k: nat)
    requires k <= |s|
    ensures Lower(s)[k..] == Lower(s[k..])
  {
    var a, b := Lower(s)[k..], Lower(s[k..]);
    assert |a| == |b|;
    forall j | 0 <= j < |a| ensures a[j] == b[j] {
      assert a[j] == Lower(s)[k + j] == LowerChar(s[k + j]);
    }
  }

  /** The check ignores letter case: lower-casing the whole name changes nothing. */
  lemma AllowedFileIgnoresCase(filename: string)
    ensures AllowedFile(Lower(filename)) == AllowedFile(filename)
  {
    LastDotIgnoresCase(filename);
    var dot := LastIndex(filename, '.');
    if dot.Some? {
      var ext := filename[dot.value + 1..];
      LowerSuffix(filename, dot.value + 1);
      LowerIdempotent(ext);
    }
  }

  // ---------------------------------------------------------------------------
  // format_file_size: the unit choice

  datatype SizeUnit = B | KB | MB | GB | TB

  /** The number `format_file_size` renders with two decimals, and the unit it appends. */
  datatype SizeDisplay = SizeDisplay(amount: real, unit: SizeUnit)

  /** 1024 raised to `k`: the divisor of the k-th unit. */
  function Power1024(k: nat): (p: real)
    ensures p >= 1.0
  {
    if k == 0 then 1.0 else 1024.0 * Power1024(k - 1)
  }

  function UnitAt(k: nat): SizeUnit {
    if k == 0 then B else if k == 1 then KB else if k == 2 then MB else if k == 3 then GB else TB
  }

  function Scale(u: SizeUnit): real {
    match u
    case B => 1.0
    case KB => 1024.0
    case MB => 1048576.0
    case GB => 1073741824.0
    case TB => 1099511627776.0
  }

  /** The unit thresholds stated directly: B below 1024, KB below 1024², MB below 1024³, GB below 1024⁴, else TB. */
  function FileSizeSpec(size: real): SizeDisplay {
    if size < 1024.0 then SizeDisplay(size, B)
    else if size < 1048576.0 then SizeDisplay(size / 1024.0, KB)
    else if size < 1073741824.0 then SizeDisplay(size / 1048576.0, MB)
    else if size < 1099511627776.0 then SizeDisplay(size / 1073741824.0, GB)
    else SizeDisplay(size / 1099511627776.0, TB)
  }

  /**
   * The displayed amount times its unit is the size again, and for a
   * non-negative size below the TB threshold the amount lies in [1, 1024)
   * for every unit above bytes.
   */
  lemma FileSizeSpecMeaning(size: real)
    ensures FileSizeSpec(size).amount * Scale(FileSizeSpec(size).unit) == size
    ensures size >= 0.0 && FileSizeSpec(size).unit != TB ==> 0.0 <= FileSizeSpec(size).amount < 1024.0
    ensures FileSizeSpec(size).unit != B ==> FileSizeSpec(size).amount >= 1.0
  {
  }

  /** `format_file_size`: divides by 1024 until the amount drops below 1024, at most four times. */
  method FormatFileSize(sizeInBytes: real) returns (d: SizeDisplay)
    ensures d == FileSizeSpec(sizeInBytes)
  {
    var units := [B, KB, MB, GB];
    var size := sizeInBytes;
    var i := 0;
    while i < |units|
      invariant 0 <= i <= |units|
      invariant size * Power1024(i) == sizeInBytes
      invariant i > 0 ==> sizeInBytes >= Power1024(i)
      invariant forall k :: 0 <= k < |units| ==> units[k] == UnitAt(k)
    {
      if size < 1024.0 {
        SpecAtStep(sizeInBytes, size, i);
        return SizeDisplay(size, units[i]);
      }
      size := size / 1024.0;
      i := i + 1;
    }
    SpecAtStep(sizeInBytes, size, 4);
    d := SizeDisplay(size, TB);
  }

  lemma SpecAtStep(sizeInBytes: real, size: real, i: nat)
    requires i <= 4
    requires size * Power1024(i) == sizeInBytes
    requires i > 0 ==> sizeInBytes >= Power1024(i)
    requires i < 4 ==> size < 1024.0
    ensures FileSizeSpec(sizeInBytes) == SizeDisplay(size, UnitAt(i))
  {
    assert Power1024(1) == 1024.0;
    assert Power1024(2) == 1048576.0;
    assert Power1024(3) == 1073741824.0;
    assert Power1024(4) == 1099511627776.0;
  }

  // ---------------------------------------------------------------------------
  // get_songs and search_songs

  const AllowedSortColumns: seq<string> := ["title", "artist", "album", "duration", "uploaded_at", "play_count"]

  function ColumnName(c: SortColumn): string {
    match c
    case Title => "title"
    case Artist => "artist"
    case Album => "album"
    case Duration => "duration"
    case UploadedAt => "uploaded_at"
    case PlayCount => "play_count"
  }

  function DirectionName(d: Direction): string {
    match d
    case Asc => "ASC"
    case Desc => "DESC"
  }

  /** The column a whitelisted `sort_by` names; None for any other text. */
  function ParseColumn(t: string): (r: Option<SortColumn>)
    ensures r.Some? <==> t in AllowedSortColumns
    ensures r.Some? ==> ColumnName(r.value) == t
  {
    if t == "title" then Some(Title)
    else if t == "artist" then Some(Artist)
    else if t == "album" then Some(Album)
    else if t == "duration" then Some(Duration)
    else if t == "uploaded_at" then Some(UploadedAt)
    else if t == "play_count" then Some(PlayCount)
    else None
  }

  /**
   * The query parameters of `get_songs` after whitelisting: a missing or
   * unknown `sort_by` becomes 'title', any `order` but 'ASC' or 'DESC'
   * becomes 'ASC'.
   */
  function SanitizeSort(sortBy: Option<string>, order: Option<string>): (r: (SortColumn, Direction))
    ensures sortBy.Some? && sortBy.value in AllowedSortColumns ==> ColumnName(r.0) == sortBy.value
    ensures !(sortBy.Some? && sortBy.value in AllowedSortColumns) ==> r.0 == Title
    ensures r.1 == Desc <==> order == Some("DESC")
  {
    var col := ParseColumn(sortBy.GetOr("title")).GetOr(Title);
    var dir := if order.GetOr("ASC") == "DESC" then Desc else Asc;
    (col, dir)
  }

  /** The text interpolated after `ORDER BY`. */
  function OrderByText(col: SortColumn, dir: Direction): string {
    ColumnName(col) + " " + DirectionName(dir)
  }

  /** The characters an `ORDER BY` fragment may hold: lower-case letters, '_', a space and those of ASC/DESC. */
  predicate SafeSqlChar(c: char) {
    'a' <= c <= 'z' || c == '_' || c == ' ' || c in "ASCDE"
  }

  /**
   * Every column and direction the sanitised query can carry is one of the
   * whitelisted names, so the interpolated `ORDER BY` text is one of twelve
   * fixed fragments made only of identifier characters: no quote, semicolon
   * or comment marker from the request can reach the SQL.
   */
  lemma OrderByWhitelisted(col: SortColumn, dir: Direction)
    ensures ColumnName(col) in AllowedSortColumns
    ensures DirectionName(dir) in ["ASC", "DESC"]
    ensures forall i :: 0 <= i < |OrderByText(col, dir)| ==> SafeSqlChar(OrderByText(col, dir)[i])
  {
    match col
    case Title =>
    case Artist =>
    case Album =>
    case Duration =>
    case UploadedAt =>
    case PlayCount =>
  }

  /** A song as JSON: the row's columns plus the keys the handlers add. */
  datatype SongJson = SongJson(row: SongRow, fileSizeDisplay: Option<SizeDisplay>, fileUrl: Option<string>)

  /** The handlers' per-song step: a truthy size gets a display, a non-empty path a URL. */
  function Decorate(song: SongJson): SongJson {
    song.(fileSizeDisplay := if song.row.fileSize.Some? && song.row.fileSize.value != 0
                             then Some(FileSizeSpec(song.row.fileSize.value as real)) else song.fileSizeDisplay,
          fileUrl := if song.row.filePath != "" then Some("/uploads/" + song.row.filePath) else song.fileUrl)
  }

  /** A row as `dict(row)` yields it, before any key is added. */
  function Plain(row: SongRow): SongJson {
    SongJson(row, None, None)
  }

  /** The response body for a list of rows. */
  function Listing(rows: seq<SongRow>): (body: seq<SongJson>)
    ensures |body| == |rows|
    ensures forall i :: 0 <= i < |rows| ==> body[i].row == rows[i]
    ensures forall i :: 0 <= i < |rows| ==>
      body[i].fileUrl == (if rows[i].filePath != "" then Some("/uploads/" + rows[i].filePath) else None)
    ensures forall i :: 0 <= i < |rows| ==>
      body[i].fileSizeDisplay == (if rows[i].fileSize.Some? && rows[i].fileSize.value != 0
                                  then Some(FileSizeSpec(rows[i].fileSize.value as real)) else None)
  {
    seq(|rows|, i requires 0 <= i < |rows| => Decorate(Plain(rows[i])))
  }

  /** The `for song in songs:` loop, which updates each dictionary in place. */
  method DecorateSongs(songs: array<SongJson>)
    modifies songs
    ensures forall i :: 0 <= i < songs.Length ==> songs[i] == Decorate(old(songs[i]))
  {
    for i := 0 to songs.Length
      invariant forall k :: 0 <= k < i ==> songs[k] == Decorate(old(songs[k]))
      invariant forall k :: i <= k < songs.Length ==> songs[k] == old(songs[k])
    {
      var song := songs[i];
      if song.row.fileSize.Some? && song.row.fileSize.value != 0 {
        var display := FormatFileSize(song.row.fileSize.value as real);
        song := song.(fileSizeDisplay := Some(display));
      }
      if song.row.filePath != "" {
        song := song.(fileUrl := Some("/uploads/" + song.row.filePath));
      }
      songs[i] := song;
    }
  }

  method Respond(rows: seq<SongRow>) returns (body: seq<SongJson>)
    ensures body == Listing(rows)
  {
    var songs := new SongJson[|rows|](i requires 0 <= i < |rows| => Plain(rows[i]));
    DecorateSongs(songs);
    body := songs[..];
  }

  /** `GET /api/songs` */
  method GetSongs(db: Database, sortBy: Option<string>, order: Option<string>) returns (body: seq<SongJson>)
    ensures body == Listing(db.AllSongs(SanitizeSort(sortBy, order).0, SanitizeSort(sortBy, order).1))
  {
    var (col, dir) := SanitizeSort(sortBy, order);
    body := Respond(db.AllSongs(col, dir));
  }

  /** `GET /api/songs/search`: an empty query answers an empty list without querying. */
  method SearchSongs(db: Database, q: string) returns (body: seq<SongJson>)
    ensures q == "" ==> body == []
    ensures q != "" ==> body == Listing(db.Search(q))
  {
    if q == "" {
      return [];
    }
    body := Respond(db.Search(q));
  }

  // ---------------------------------------------------------------------------
  // upload_song

  /** The multipart form as the handler sees it: no `file` part, or a part with a file name. */
  datatype UploadForm = NoFilePart | FilePart(filename: string)

  /** The three checks made before anything is saved, in the order the handler makes them. */
  function UploadGuard(form: UploadForm): (r: Result<string, ApiError>)
    ensures r.Ok? <==> form.FilePart? && form.filename != "" && AllowedFile(form.filename)
    ensures r.Ok? ==> r.value == form.filename
    ensures r.Err? ==> r.error.status == 400
  {
    if form.NoFilePart? then Err(ApiError(400, "No file part"))
    else if form.filename == "" then Err(ApiError(400, "No selected file"))
    else if !AllowedFile(form.filename) then Err(ApiError(400, "File type not allowed"))
    else Ok(form.filename)
  }

  /** The first failing check decides the message: an empty name is never reported as a bad type. */
  lemma UploadGuardOrder(form: UploadForm)
    ensures form.NoFilePart? ==> UploadGuard(form).error.message == "No file part"
    ensures form == FilePart("") ==> UploadGuard(form).error.message == "No selected file"
    ensures form.FilePart? && form.filename != "" && !AllowedFile(form.filename) ==>
      UploadGuard(form).error.message == "File type not allowed"
  {
  }

  /** Some character in `p[from..to]` is not a '.'. */
  predicate HasNonDot(p: string, from: int, to: int)
    requires 0 <= from <= to <= |p|
  {
    exists k :: from <= k < to && p[k] != '.'
  }

  /**
   * Where `os.path.splitext` (POSIX) splits `p`: at the last '.', provided
   * it comes after the last '/' and something other than dots precedes it
   * within the last path component; None when there is no extension.
   */
  function ExtStart(p: string): (r: Option<nat>)
    ensures r.Some? ==> r.value < |p| && p[r.value] == '.'
  {
    match LastIndex(p, '.')
    case None => None
    case Some(dot) =>
      if SplitsAt(p, dot) then Some(dot) else None
  }

  /** Where the last path component starts: just after the last '/'. */
  function ComponentStart(p: string): (k: nat)
    ensures k <= |p|
  {
    match LastIndex(p, '/')
    case None => 0
    case Some(sep) => sep + 1
  }

  /** The dot at `dot` lies in the last component and follows some non-dot there. */
  predicate SplitsAt(p: string, dot: nat)
    requires dot <= |p|
  {
    ComponentStart(p) <= dot && HasNonDot(p, ComponentStart(p), dot)
  }

  /** `os.path.splitext`: the stem and the extension, which starts with '.' or is empty. */
  function SplitExt(p: string): (r: (string, string))
    ensures r.0 + r.1 == p
    ensures r.1 == "" || r.1[0] == '.'
    ensures r.1 != "" ==> '.' !in r.1[1..] && '/' !in r.1
  {
    match ExtStart(p)
    case None => (p, "")
    case Some(d) =>
      assert p[..d] + p[d..] == p;
      LastIndexMeaning(p, '.');
      LastIndexMeaning(p, '/');
      (p[..d], p[d..])
  }

  /** `f"{filename}_{timestamp}{ext}"` for the (stem, extension) split of the sanitised name. */
  function StoredName(sanitized: string, timestamp: nat): string {
    var (stem, ext) := SplitExt(sanitized);
    stem + "_" + NatToString(timestamp) + ext
  }

  /** Text without `c` appended to `s` leaves the last `c` where it was. */
  lemma {:induction false} LastIndexAppend(s: string, t: string, c: char)
    requires c !in t
    ensures LastIndex(s + t, c) == LastIndex(s, c)
  {
    if t == [] {
      assert s + t == s;
    } else {
      assert (s + t)[..|s + t| - 1] == s + t[..|t| - 1];
      LastIndexAppend(s, t[..|t| - 1], c);
    }
  }

  lemma HasNonDotAppend(p: string, q: string, from: int, to: int)
    requires 0 <= from <= to <= |p|
    ensures HasNonDot(p + q, from, to) == HasNonDot(p, from, to)
  {
    if HasNonDot(p + q, from, to) {
      var k :| from <= k < to && (p + q)[k] != '.';
      assert p[k] == (p + q)[k];
    }
    if HasNonDot(p, from, to) {
      var k :| from <= k < to && p[k] != '.';
      assert (p + q)[k] == p[k];
    }
  }

  lemma DigitsHaveNoSeparator(n: nat)
    ensures '.' !in NatToString(n) && '/' !in NatToString(n)
  {
    var s := NatToString(n);
    forall i | 0 <= i < |s| ensures s[i] != '.' && s[i] != '/' {
      assert IsDigit(s[i]);
    }
  }

  /** A name without an extension keeps none when text free of '.' and '/' is appended. */
  lemma NoExtensionKept(p: string, mid: string, name: string)
    requires '.' !in mid && '/' !in mid
    requires name == p + mid
    requires ExtStart(p).None?
    ensures ExtStart(name).None?
  {
    LastIndexAppend(p, mid, '.');
    LastIndexAppend(p, mid, '/');
    var dot := LastIndex(p, '.');
    if dot.Some? && ComponentStart(p) <= dot.value {
      HasNonDotAppend(p, mid, ComponentStart(p), dot.value);
    }
  }

  /** Text free of '.' and '/' inserted before the extension moves the split point by its length. */
  lemma ExtensionKept(p: string, mid: string, d: nat, name: string)
    requires '.' !in mid && '/' !in mid
    requires ExtStart(p) == Some(d)
    requires name == p[..d] + mid + p[d..]
    ensures ExtStart(name) == Some(d + |mid|)
  {
    assert LastIndex(p, '.') == Some(d) && SplitsAt(p, d);
    LastDotMoves(p, mid, d, name);
    LastSlashStays(p, mid, d, name);
    assert HasNonDot(name, ComponentStart(name), d + |mid|) by {
      var k :| ComponentStart(p) <= k < d && p[k] != '.';
      assert name[k] == p[k];
    }
  }

  /** A `c` opening `y`, with no other `c` after it, is the last `c` of `x + y`. */
  lemma {:induction false} LastIndexOfMarker(s: string, x: string, c: char, y: string)
    requires c !in y
    requires s == x + [c] + y
    ensures LastIndex(s, c) == Some(|x|)
  {
    if y != [] {
      var y' := y[..|y| - 1];
      assert s[..|s| - 1] == x + [c] + y';
      LastIndexOfMarker(s[..|s| - 1], x, c, y');
    }
  }

  /** Nothing after the last `c` is a `c`. */
  lemma NoneAfterLast(p: string, c: char, d: nat)
    requires LastIndex(p, c) == Some(d)
    ensures c !in p[d + 1..]
    ensures p[d..] == [c] + p[d + 1..]
  {
    var rest := p[d + 1..];
    LastIndexMeaning(p, c);
    forall j | 0 <= j < |rest| ensures rest[j] != c {
      assert rest[j] == p[d + 1 + j];
    }
  }

  lemma InsertShape(p: string, mid: string, d: nat, rest: string, name: string)
    requires d < |p| && p[d..] == ['.'] + rest
    requires name == p[..d] + mid + p[d..]
    ensures name == (p[..d] + mid) + ['.'] + rest
  {
  }

  lemma LastDotMoves(p: string, mid: string, d: nat, name: string)
    requires '.' !in mid
    requires LastIndex(p, '.') == Some(d)
    requires name == p[..d] + mid + p[d..]
    ensures LastIndex(name, '.') == Some(d + |mid|)
  {
    var rest := p[d + 1..];
    NoneAfterLast(p, '.', d);
    InsertShape(p, mid, d, rest, name);
    LastIndexOfMarker(name, p[..d] + mid, '.', rest);
  }

  lemma LastSlashStays(p: string, mid: string, d: nat, name: string)
    requires '/' !in mid
    requires d <= |p|
    requires ComponentStart(p) <= d
    requires name == p[..d] + mid + p[d..]
    ensures ComponentStart(name) == ComponentStart(p)
  {
    var tail := p[d..];
    LastIndexMeaning(p, '/');
    assert '/' !in tail by {
      forall j | 0 <= j < |tail| ensures tail[j] != '/' {
        assert tail[j] == p[d + j];
      }
    }
    assert p == p[..d] + tail;
    LastIndexAppend(p[..d], tail, '/');
    assert name == p[..d] + (mid + tail);
    assert '/' !in mid + tail;
    LastIndexAppend(p[..d], mid + tail, '/');
  }

  /** Inserting text free of '.' and '/' between stem and extension keeps the extension. */
  lemma SplitExtOfInsert(p: string, mid: string, name: string)
    requires '.' !in mid && '/' !in mid
    requires name == SplitExt(p).0 + mid + SplitExt(p).1
    ensures SplitExt(name) == (SplitExt(p).0 + mid, SplitExt(p).1)
  {
    match ExtStart(p)
    case None =>
      assert name == p + mid;
      NoExtensionKept(p, mid, name);
    case Some(d) =>
      ExtensionKept(p, mid, d, name);
      assert name[..d + |mid|] == p[..d] + mid;
      assert name[d + |mid|..] == p[d..];
  }

  /**
   * The stored name keeps the sanitised name's extension: splitting it again
   * gives the stem with "_<timestamp>" appended, and the same extension.
   */
  lemma StoredNameKeepsExtension(sanitized: string, timestamp: nat)
    ensures SplitExt(StoredName(sanitized, timestamp)).1 == SplitExt(sanitized).1
    ensures SplitExt(StoredName(sanitized, timestamp)).0 == SplitExt(sanitized).0 + "_" + NatToString(timestamp)
  {
    var mid := "_" + NatToString(timestamp);
    DigitsHaveNoSeparator(timestamp);
    assert '.' !in mid && '/' !in mid;
    var (stem, ext) := SplitExt(sanitized);
    assert StoredName(sanitized, timestamp) == stem + mid + ext;
    SplitExtOfInsert(sanitized, mid, StoredName(sanitized, timestamp));
  }

  /** `str.title()` on ASCII text: a letter is upper-cased after a non-letter, lower-cased after a letter. */
  function TitleFrom(s: string, afterLetter: bool): (r: string)
    ensures |r| == |s|
  {
    if s == [] then []
    else
      var c := s[0];
      var d := if IsLetter(c) then (if afterLetter then LowerChar(c) else UpperChar(c)) else c;
      [d] + TitleFrom(s[1..], IsLetter(c))
  }

  predicate IsLetter(c: char) {
    'a' <= c <= 'z' || 'A' <= c <= 'Z'
  }

  function UpperChar(c: char): char {
    if 'a' <= c <= 'z' then (c as int - 32) as char else c
  }

  /** Title-casing title-cased text changes nothing. */
  lemma {:induction false} TitleFromIdempotent(s: string, afterLetter: bool)
    ensures TitleFrom(TitleFrom(s, afterLetter), afterLetter) == TitleFrom(s, afterLetter)
  {
    if s != [] {
      var t := TitleFrom(s, afterLetter);
      assert IsLetter(t[0]) == IsLetter(s[0]);
      TitleFromIdempotent(s[1..], IsLetter(s[0]));
      assert t[1..] == TitleFrom(s[1..], IsLetter(s[0]));
    }
  }

  /** `filename.replace('_', ' ')` */
  function Unscore(s: string): (r: string)
    ensures |r| == |s|
    ensures forall i :: 0 <= i < |s| ==> r[i] == (if s[i] == '_' then ' ' else s[i])
  {
    if s == [] then [] else [if s[0] == '_' then ' ' else s[0]] + Unscore(s[1..])
  }

  /** The title given to an uploaded song: its stem with spaces for underscores, title-cased. */
  function UploadTitle(stem: string): string {
    TitleFrom(Unscore(stem), false)
  }

  /** The 3-minute stand-in that `get_song_duration` returns for every file. */
  const DefaultDuration: int := 180

  /**
   * `POST /api/songs/upload`.  `sanitized` is what `secure_filename` makes of
   * the client's name; `saved` is the size of the stored file, or the text
   * of the exception that saving or measuring it raised; `mimeType` is the
   * guess from the stored name; `dbError` is the text of an exception that
   * `db.add_song` raises (a locked or read-only file, a failed commit).  The
   * connection's `with` block rolls such an insert back, and the route's
   * `except` answers 500 with the text, leaving the saved file on disk.
   */
  method UploadSong(db: Database, form: UploadForm, sanitized: string, timestamp: nat,
                    saved: Result<int, string>, mimeType: Option<string>, dbError: Option<string>, now: int)
    returns (reply: Result<(int, string), ApiError>)
    requires db.Valid()
    modifies db`songs, db`songSeq
    ensures db.Valid()
    ensures UploadGuard(form).Err? ==> reply == Err(UploadGuard(form).error) && unchanged(db)
    ensures UploadGuard(form).Ok? && saved.Err? ==> reply == Err(ApiError(500, saved.error)) && unchanged(db)
    ensures UploadGuard(form).Ok? && saved.Ok? && dbError.Some? ==>
      reply == Err(ApiError(500, dbError.value)) && unchanged(db)
    ensures UploadGuard(form).Ok? && saved.Ok? && dbError.None? ==>
      var stored := StoredName(sanitized, timestamp);
      && reply == Ok((old(db.songSeq) + 1, "/uploads/" + stored))
      && db.songs == old(db.songs) + [SongRow(old(db.songSeq) + 1, UploadTitle(SplitExt(sanitized).0), "Unknown Artist", "",
                                             DefaultDuration, stored, Some(saved.value), mimeType.GetOr("audio/mpeg"), now, 0, None)]
  {
    var guard := UploadGuard(form);
    if guard.Err? {
      return Err(guard.error);
    }
    var (stem, ext) := SplitExt(sanitized);
    var stored := stem + "_" + NatToString(timestamp) + ext;
    if saved.Err? {
      return Err(ApiError(500, saved.error));
    }
    if dbError.Some? {
      return Err(ApiError(500, dbError.value));
    }
    var songId := db.AddSong(UploadTitle(stem), "Unknown Artist", "", DefaultDuration, stored,
                             Some(saved.value), mimeType.GetOr("audio/mpeg"), now);
    reply := Ok((songId, "/uploads/" + stored));
  }

  // ---------------------------------------------------------------------------
  // play_song

  datatype PlayReply = Stream(path: string, mimeType: string) | NotFound(message: string)

  /** What `play_song` answers for an existing song once its play has been counted. */
  function PlayOutcome(song: SongRow, fileExists: bool): (r: PlayReply)
    ensures r.Stream? <==> song.filePath != "" && fileExists
    ensures song.filePath == "" ==> r == NotFound("File not found")
    ensures song.filePath != "" && !fileExists ==> r == NotFound("File not found on server")
    ensures r.Stream? ==> r.path == "uploads/" + song.filePath
    ensures r.Stream? ==> r.mimeType == (if song.fileType == "" then "audio/mpeg" else song.fileType)
    ensures r.Stream? ==> r.mimeType != ""
  {
    if song.filePath == "" then NotFound("File not found")
    else if !fileExists then NotFound("File not found on server")
    else Stream("uploads/" + song.filePath, if song.fileType == "" then "audio/mpeg" else song.fileType)
  }

  /**
   * `GET /api/songs/<id>/play`: an unknown id is a 404 with nothing changed;
   * for a known id the play is counted first, so the two "file not found"
   * answers still count as plays.  `fileExists` is `os.path.exists`.
   */
  method PlaySong(db: Database, songId: int, fileExists: bool, now: int) returns (reply: PlayReply)
    requires db.Valid()
    modifies db`songs
    ensures db.Valid()
    ensures old(db.GetSong(songId)).None? ==> reply == NotFound("Song not found") && unchanged(db)
    ensures old(db.GetSong(songId)).Some? ==>
      && db.songs == BumpPlayCount(old(db.songs), songId, now)
      && reply == PlayOutcome(old(db.GetSong(songId)).value, fileExists)
  {
    var song := db.GetSong(songId);
    if song.None? {
      return NotFound("Song not found");
    }
    db.UpdatePlayCount(songId, now);
    reply := PlayOutcome(song.value, fileExists);
  }

  // ---------------------------------------------------------------------------
  // get_song and delete_song

  /** `GET /api/songs/<id>`: the row decorated as in the listings, or 404 'Song not found'. */
  method GetSong(db: Database, songId: int) returns (reply: Result<SongJson, ApiError>)
    requires db.Valid()
    ensures reply.Err? <==> db.GetSong(songId).None?
    ensures reply.Err? ==> reply.error == ApiError(404, "Song not found")
    ensures reply.Ok? ==> [reply.value] == Listing([db.GetSong(songId).value]) && reply.value.row.id == songId
  {
    var song := db.GetSong(songId);
    if song.None? {
      return Err(ApiError(404, "Song not found"));
    }
    var body := Respond([song.value]);
    reply := Ok(body[0]);
  }

  /**
   * `DELETE /api/songs/<id>`: 404 for an unknown id.  Otherwise a stored
   * file that exists is removed first (`removeError` is the message of an
   * `os.remove` that raises, which answers 500 before the database is
   * touched), then the row and its links are deleted.  `fileRemoved` says
   * whether the file was removed.  The 500 'Failed to delete song' branch
   * is unreachable here: the row was just found, so the delete reports it.
   */
  method DeleteSong(db: Database, songId: int, fileExists: bool, removeError: Option<string>)
    returns (reply: Result<string, ApiError>, fileRemoved: bool)
    requires db.Valid()
    modifies db`songs, db`links
    ensures db.Valid()
    ensures old(db.GetSong(songId)).None? ==>
      reply == Err(ApiError(404, "Song not found")) && !fileRemoved && unchanged(db)
    ensures old(db.GetSong(songId)).Some? && old(db.GetSong(songId)).value.filePath != "" && fileExists
            && removeError.Some? ==>
      reply == Err(ApiError(500, removeError.value)) && !fileRemoved && unchanged(db)
    ensures old(db.GetSong(songId)).Some? && !(old(db.GetSong(songId)).value.filePath != "" && fileExists
            && removeError.Some?) ==>
      && reply == Ok("Song deleted successfully")
      && fileRemoved == (old(db.GetSong(songId)).value.filePath != "" && fileExists)
      && db.songs == DropSong(old(db.songs), songId)
      && db.links == DropSongLinks(old(db.links), songId)
  {
    var song := db.GetSong(songId);
    if song.None? {
      return Err(ApiError(404, "Song not found")), false;
    }
    fileRemoved := false;
    if song.value.filePath != "" && fileExists {
      if removeError.Some? {
        return Err(ApiError(500, removeError.value)), false;
      }
      fileRemoved := true;
    }
    var success := db.DeleteSong(songId);
    if success {
      reply := Ok("Song deleted successfully");
    } else {
      reply := Err(ApiError(500, "Failed to delete song"));
    }
  }

  // ---------------------------------------------------------------------------
  // get_playlist, delete_playlist and add_song_to_playlist

  /** A playlist song as JSON: the decorated song plus its `position` column. */
  datatype EntryJson = EntryJson(song: SongJson, position: int)

  /** A playlist as JSON: its row plus the `songs` key. */
  datatype PlaylistJson = PlaylistJson(row: PlaylistRow, songs: seq<EntryJson>)

  /**
   * `GET /api/playlists/<id>`: 404 'Playlist not found' for an unknown id;
   * otherwise the playlist row with its joined songs, in position order,
   * each decorated as in the listings.
   */
  method GetPlaylist(db: Database, pid: int) returns (reply: Result<PlaylistJson, ApiError>)
    requires db.Valid()
    ensures reply.Err? <==> db.GetPlaylist(pid).None?
    ensures reply.Err? ==> reply.error == ApiError(404, "Playlist not found")
    ensures reply.Ok? ==>
      var entries := db.PlaylistSongs(pid);
      && reply.value.row == db.GetPlaylist(pid).value
      && |reply.value.songs| == |entries|
      && forall i :: 0 <= i < |entries| ==>
           && [reply.value.songs[i].song] == Listing([entries[i].song])
           && reply.value.songs[i].position == entries[i].position
  {
    var playlist := db.GetPlaylist(pid);
    if playlist.None? {
      return Err(ApiError(404, "Playlist not found"));
    }
    var entries := db.PlaylistSongs(pid);
    var rows := seq(|entries|, i requires 0 <= i < |entries| => entries[i].song);
    var body := Respond(rows);
    var songs := seq(|entries|, i requires 0 <= i < |entries| => EntryJson(body[i], entries[i].position));
    reply := Ok(PlaylistJson(playlist.value, songs));
  }

  /** `DELETE /api/playlists/<id>`: 200 exactly when the playlist existed, else 404 'Playlist not found'. */
  method DeletePlaylist(db: Database, pid: int) returns (reply: Result<string, ApiError>)
    requires db.Valid()
    modifies db`playlists
    ensures db.Valid()
    ensures reply.Ok? <==> old(db.GetPlaylist(pid)).Some?
    ensures reply.Err? ==> reply.error == ApiError(404, "Playlist not found")
    ensures db.playlists == DropPlaylist(old(db.playlists), pid)
  {
    var success := db.DeletePlaylist(pid);
    if success {
      reply := Ok("Playlist deleted successfully");
    } else {
      reply := Err(ApiError(404, "Playlist not found"));
    }
  }

  /**
   * `POST /api/playlists/<id>/songs/<song_id>`: 200 exactly when the pair
   * was not yet linked, else 400 'Song already in playlist'.  Neither id is
   * checked, so a pair naming no playlist or no song is linked too.
   */
  method AddSongToPlaylist(db: Database, pid: int, sid: int, now: int) returns (reply: Result<string, ApiError>)
    requires db.Valid()
    modifies db`links, db`playlists
    ensures db.Valid()
    ensures reply.Ok? <==> !HasPair(old(db.links), pid, sid)
    ensures reply.Err? ==> reply.error == ApiError(400, "Song already in playlist") && unchanged(db)
    ensures reply.Ok? ==>
      && db.links == old(db.links) + [Link(pid, sid, now, NextPosition(old(db.links), pid))]
      && db.playlists == AdjustSongCount(old(db.playlists), pid, 1)
  {
    var success := db.AddSongToPlaylist(pid, sid, now);
    if success {
      reply := Ok("Song added to playlist");
    } else {
      reply := Err(ApiError(400, "Song already in playlist"));
    }
  }

  // ---------------------------------------------------------------------------
  // create_playlist

  /** The JSON body: absent, or an object whose values are strings. */
  datatype JsonBody = NoJson | JsonObject(fields: map<string, string>)

  /** The guard of `create_playlist`: a body with a 'name' key; 'description' defaults to ''. */
  function PlaylistFields(body: JsonBody): (r: Result<(string, string), ApiError>)
    ensures r.Ok? <==> body.JsonObject? && "name" in body.fields
    ensures r.Ok? ==> r.value.0 == body.fields["name"]
    ensures r.Ok? ==> r.value.1 == (if "description" in body.fields then body.fields["description"] else "")
    ensures r.Err? ==> r.error == ApiError(400, "Playlist name is required")
  {
    if body.NoJson? || body.fields == map[] || "name" !in body.fields then Err(ApiError(400, "Playlist name is required"))
    else Ok((body.fields["name"], if "description" in body.fields then body.fields["description"] else ""))
  }

  /** The server accepts an empty name, which only the client refuses. */
  lemma EmptyNameAccepted()
    ensures PlaylistFields(JsonObject(map["name" := ""])) == Ok(("", ""))
  {
  }

  /** `POST /api/playlists` */
  method CreatePlaylist(db: Database, body: JsonBody, now: int) returns (reply: Result<int, ApiError>)
    requires db.Valid()
    modifies db`playlists, db`playlistSeq
    ensures db.Valid()
    ensures PlaylistFields(body).Err? ==> reply == Err(PlaylistFields(body).error) && unchanged(db)
    ensures PlaylistFields(body).Ok? ==>
      && reply == Ok(old(db.playlistSeq) + 1)
      && db.playlists == old(db.playlists) + [PlaylistRow(old(db.playlistSeq) + 1, PlaylistFields(body).value.0, PlaylistFields(body).value.1, now, 0)]
  {
    var fields := PlaylistFields(body);
    if fields.Err? {
      return Err(fields.error);
    }
    var id := db.CreatePlaylist(fields.value.0, fields.value.1, now);
    reply := Ok(id);
  }

  /**
   * `DELETE /api/playlists/<id>/songs/<song_id>` as written: the database
   * removal always reports false, so the route answers 404 'Song not in
   * playlist' even after it has deleted the link and lowered the count.
   */
  method RemoveSongFromPlaylist(db: Database, pid: int, sid: int) returns (reply: Result<string, ApiError>)
    requires db.Valid()
    modifies db`links, db`playlists
    ensures db.Valid()
    ensures reply == Err(ApiError(404, "Song not in playlist"))
    ensures db.links == DropPair(old(db.links), pid, sid)
    ensures db.playlists == AdjustSongCount(old(db.playlists), pid, -1)
  {
    var success := db.RemoveSongFromPlaylist(pid, sid);
    if success {
      reply := Ok("Song removed from playlist");
    } else {
      reply := Err(ApiError(404, "Song not in playlist"));
    }
  }

  /**
   * The same route over the corrected database removal: 200 exactly when
   * the song was in the playlist, 404 'Song not in playlist' otherwise.
   */
  method RemoveSongFromPlaylistFixed(db: Database, pid: int, sid: int) returns (reply: Result<string, ApiError>)
    requires db.Valid()
    modifies db`links, db`playlists
    ensures db.Valid()
    ensures reply.Ok? <==> HasPair(old(db.links), pid, sid)
    ensures reply.Err? ==> reply.error == ApiError(404, "Song not in playlist")
    ensures (db.links, db.playlists) == RemovePairFixed(old(db.links), old(db.playlists), pid, sid)
  {
    var success := db.RemoveSongFromPlaylistFixed(pid, sid);
    if success {
      reply := Ok("Song removed from playlist");
    } else {
      reply := Err(ApiError(404, "Song not in playlist"));
    }
  }
}
