/**
  src/data/SongDatabase: the song table, the (name, album) lookup, the paged
  search, the song/album/band join, and the partial edit.
 */
module SongDatabase {
  import opened Errors
  import opened Records
  import opened Database
  import opened Tables

  /**
    The message of the TypeError raised by reading a field of `result[0]` when
    the join is empty, in the wording of Node 14 and earlier; later runtimes
    word it "Cannot read properties of undefined (reading 'id')".
   */
  const UNDEFINED_ROW := "Cannot read property 'id' of undefined"

  /**
    knex refuses an `update` with no columns. This text stands in for the
    library's message, whose wording depends on its version.
   */
  const EMPTY_UPDATE := "Empty .update() call detected! Update data does not contain any values to update."

  /** `createSong`: one insert. */
  method CreateSong(db: Store, song: SongRow, driver: Option<string>) returns (r: Outcome)
    modifies db`songs
    ensures driver.Some? ==> r == Fail(InternalServer(driver.value)) && db.songs == old(db.songs)
    ensures driver.None? ==> r == Pass && db.songs == old(db.songs) + [song]
  {
    if driver.Some? {
      return Fail(InternalServer(driver.value));
    }
    db.songs := db.songs + [song];
    r := Pass;
  }

  predicate SameNameAndAlbum(row: SongRow, name: string, albumId: string) {
    row.name == name && row.albumId == albumId
  }

  /** `checkSongByNameAndAlbum`: are there rows with that name and album? */
  function CheckSongByNameAndAlbum(songs: seq<SongRow>, name: string, albumId: string): (r: bool)
    ensures r <==> exists i :: 0 <= i < |songs| && SameNameAndAlbum(songs[i], name, albumId)
  {
    var result := Filter(songs, row => SameNameAndAlbum(row, name, albumId));
    assert forall i :: 0 <= i < |songs| && SameNameAndAlbum(songs[i], name, albumId) ==> songs[i] in result;
    if |result| > 0 then
      assert result[0] in songs;
      assert exists i :: 0 <= i < |songs| && songs[i] == result[0];
      true
    else false
  }

  /** After an insert, the lookup for the inserted pair succeeds; other pairs keep their answer. */
  lemma CheckAfterCreate(songs: seq<SongRow>, song: SongRow, name: string, albumId: string)
    ensures CheckSongByNameAndAlbum(songs + [song], name, albumId) <==>
            CheckSongByNameAndAlbum(songs, name, albumId) || SameNameAndAlbum(song, name, albumId)
  {
    var extended := songs + [song];
    if CheckSongByNameAndAlbum(songs, name, albumId) {
      var i :| 0 <= i < |songs| && SameNameAndAlbum(songs[i], name, albumId);
      assert extended[i] == songs[i];
    }
    if CheckSongByNameAndAlbum(extended, name, albumId) && !SameNameAndAlbum(song, name, albumId) {
      var i :| 0 <= i < |extended| && SameNameAndAlbum(extended[i], name, albumId);
      assert i < |songs| && extended[i] == songs[i];
    }
    assert extended[|songs|] == song;
  }

  /** The `{ id, name }` projection of a song row. */
  function SummaryOf(row: SongRow): SongSummary {
    SongSummary(row.id, row.name)
  }

  /** `getSongsByAlbumId`: the songs of one album, in table order. */
  function GetSongsByAlbumId(songs: seq<SongRow>, albumId: string): (r: seq<SongSummary>)
    ensures |r| <= |songs|
    ensures |r| == |Filter(songs, (row: SongRow) => row.albumId == albumId)|
    ensures forall i :: 0 <= i < |r| ==> r[i] == SummaryOf(Filter(songs, (row: SongRow) => row.albumId == albumId)[i])
    ensures forall x :: x in r <==> exists i :: 0 <= i < |songs| && songs[i].albumId == albumId && x == SummaryOf(songs[i])
  {
    var rows := Filter(songs, (row: SongRow) => row.albumId == albumId);
    var result := Map(rows, SummaryOf);
    assert forall x :: x in result ==> exists i :: 0 <= i < |songs| && songs[i].albumId == albumId && x == SummaryOf(songs[i]) by {
      forall x | x in result
        ensures exists i :: 0 <= i < |songs| && songs[i].albumId == albumId && x == SummaryOf(songs[i])
      {
        var k :| 0 <= k < |result| && result[k] == x;
        assert rows[k] in songs;
        var i :| 0 <= i < |songs| && songs[i] == rows[k];
      }
    }
    assert forall i :: 0 <= i < |songs| && songs[i].albumId == albumId ==> SummaryOf(songs[i]) in result by {
      forall i | 0 <= i < |songs| && songs[i].albumId == albumId
        ensures SummaryOf(songs[i]) in result
      {
        assert songs[i] in rows;
        var k :| 0 <= k < |rows| && rows[k] == songs[i];
        assert result[k] == SummaryOf(songs[i]);
      }
    }
    result
  }

  /** The songs named exactly `query`, projected, in table order. */
  function NamedSongs(songs: seq<SongRow>, query: string): (r: seq<SongSummary>)
    ensures forall i :: 0 <= i < |r| ==> r[i].name == query
    ensures |r| == |Filter(songs, (row: SongRow) => row.name == query)|
    ensures forall i :: 0 <= i < |r| ==> r[i] == SummaryOf(Filter(songs, (row: SongRow) => row.name == query)[i])
    ensures forall row :: row in songs && row.name == query ==> SummaryOf(row) in r
  {
    var rows := Filter(songs, (row: SongRow) => row.name == query);
    var result := Map(rows, SummaryOf);
    assert forall row :: row in songs && row.name == query ==> SummaryOf(row) in result by {
      forall row | row in songs && row.name == query
        ensures SummaryOf(row) in result
      {
        assert row in rows;
        var k :| 0 <= k < |rows| && rows[k] == row;
        assert result[k] == SummaryOf(row);
      }
    }
    result
  }

  /**
    `getSongsByQuery`: one page of the songs named exactly `query`, at offset
    `limit * (page - 1)`; a negative offset is refused by the database.
   */
  function GetSongsByQuery(songs: seq<SongRow>, query: string, limit: nat, page: int): (r: Result<seq<SongSummary>>)
    ensures r.Err? <==> Offset(limit, page) < 0
    ensures r.Err? ==> r.error == InternalServer(NEGATIVE_OFFSET)
    ensures r.Ok? ==> |r.value| <= limit
    ensures r.Ok? ==> |r.value| == Min(limit, Max(0, |NamedSongs(songs, query)| - Offset(limit, page)))
    ensures r.Ok? ==> forall i :: 0 <= i < |r.value| ==> r.value[i].name == query
    ensures r.Ok? ==> forall i :: 0 <= i < |r.value| ==>
                        Offset(limit, page) + i < |NamedSongs(songs, query)| &&
                        r.value[i] == NamedSongs(songs, query)[Offset(limit, page) + i]
  {
    Window(NamedSongs(songs, query), limit, page)
  }

  /** Does the triple satisfy the join `song.album_id = album.id, album.band_id = user.id` for `song.id = id`? */
  predicate Joins(s: SongRow, a: AlbumRow, u: UserRow, id: string) {
    s.id == id && s.albumId == a.id && a.bandId == u.id
  }

  /** The selected columns of one joined triple. */
  function SongOf(s: SongRow, a: AlbumRow, u: UserRow): Song {
    Song(s.id, s.name, a.id, a.name, a.image, u.id, u.name)
  }

  function UserJoin(s: SongRow, a: AlbumRow, users: seq<UserRow>, id: string): seq<Song> {
    FlatMap(users, u => if Joins(s, a, u, id) then [SongOf(s, a, u)] else [])
  }

  function AlbumJoin(s: SongRow, albums: seq<AlbumRow>, users: seq<UserRow>, id: string): seq<Song> {
    FlatMap(albums, a => UserJoin(s, a, users, id))
  }

  /** The result set of the join in `getSongById`. */
  function JoinedSongs(songs: seq<SongRow>, albums: seq<AlbumRow>, users: seq<UserRow>, id: string): (r: seq<Song>)
    ensures forall x :: x in r <==>
      exists i, j, k :: 0 <= i < |songs| && 0 <= j < |albums| && 0 <= k < |users| &&
        Joins(songs[i], albums[j], users[k], id) && x == SongOf(songs[i], albums[j], users[k])
  {
    FlatMap(songs, s => AlbumJoin(s, albums, users, id))
  }

  /**
    `getSongById` as written: `Song.toSongModel(result[0])`. When the join is
    empty the field read throws, and the catch turns that into an
    InternalServerError; the method never returns undefined.
   */
  function GetSongById(songs: seq<SongRow>, albums: seq<AlbumRow>, users: seq<UserRow>, id: string): (r: Result<Song>)
    ensures r.Ok? <==> exists i, j, k :: 0 <= i < |songs| && 0 <= j < |albums| && 0 <= k < |users| &&
                         Joins(songs[i], albums[j], users[k], id)
    ensures r.Ok? ==> exists i, j, k :: 0 <= i < |songs| && 0 <= j < |albums| && 0 <= k < |users| &&
                         Joins(songs[i], albums[j], users[k], id) && r.value == SongOf(songs[i], albums[j], users[k])
    ensures r.Ok? ==> r.value.id == id
    ensures r.Err? ==> r.error == InternalServer(UNDEFINED_ROW)
  {
    var result := JoinedSongs(songs, albums, users, id);
    if |result| == 0 then
      assert forall i, j, k :: (0 <= i < |songs| && 0 <= j < |albums| && 0 <= k < |users| &&
                                Joins(songs[i], albums[j], users[k], id)) ==>
                                 SongOf(songs[i], albums[j], users[k]) in result;
      Err(InternalServer(UNDEFINED_ROW))
    else
      assert result[0] in result;
      Ok(result[0])
  }

  /** The corrected lookup: no joined row is reported as absent rather than thrown. */
  function FindSongById(songs: seq<SongRow>, albums: seq<AlbumRow>, users: seq<UserRow>, id: string): (r: Option<Song>)
    ensures r.None? <==> GetSongById(songs, albums, users, id).Err?
    ensures r.Some? ==> r.value == GetSongById(songs, albums, users, id).value
  {
    match GetSongById(songs, albums, users, id)
    case Err(_) => None
    case Ok(song) => Some(song)
  }

  /** The columns `editSong` sets: only those given non-empty. */
  datatype SongEdit = SongEdit(name: Option<string>, albumId: Option<string>)

  function EditedRow(row: SongRow, edit: SongEdit): SongRow {
    row.(name := edit.name.GetOr(row.name), albumId := edit.albumId.GetOr(row.albumId))
  }

  /** The table after `update(edit).where({ id })`. */
  function EditRows(songs: seq<SongRow>, id: string, edit: SongEdit): (r: seq<SongRow>)
    ensures |r| == |songs|
    ensures forall i :: 0 <= i < |songs| ==> r[i].id == songs[i].id
    ensures forall i :: 0 <= i < |songs| && songs[i].id != id ==> r[i] == songs[i]
    ensures forall i :: 0 <= i < |songs| && songs[i].id == id ==> r[i] == EditedRow(songs[i], edit)
  {
    Map(songs, (row: SongRow) => if row.id == id then EditedRow(row, edit) else row)
  }

  /** Applying the same edit twice is the same as applying it once. */
  lemma EditIdempotent(songs: seq<SongRow>, id: string, edit: SongEdit)
    ensures EditRows(EditRows(songs, id, edit), id, edit) == EditRows(songs, id, edit)
  {
  }

  /**
    `editSong`: the update is built field by field from the non-empty inputs;
    an input with neither field leaves nothing to update, which knex refuses.
   */
  method EditSong(db: Store, input: SongRow, driver: Option<string>) returns (r: Outcome)
    modifies db`songs
    ensures input.name == "" && input.albumId == "" ==>
              r == Fail(InternalServer(EMPTY_UPDATE)) && db.songs == old(db.songs)
    ensures (input.name != "" || input.albumId != "") && driver.Some? ==>
              r == Fail(InternalServer(driver.value)) && db.songs == old(db.songs)
    ensures (input.name != "" || input.albumId != "") && driver.None? ==> r == Pass
    ensures (input.name != "" || input.albumId != "") && driver.None? ==> |db.songs| == |old(db.songs)|
    ensures (input.name != "" || input.albumId != "") && driver.None? ==>
              forall i :: 0 <= i < |db.songs| ==>
                db.songs[i] == (if old(db.songs)[i].id != input.id then old(db.songs)[i]
                                else SongRow(input.id,
                                             if input.name != "" then input.name else old(db.songs)[i].name,
                                             if input.albumId != "" then input.albumId else old(db.songs)[i].albumId))
  {
    var edit := SongEdit(None, None);
    if input.name != "" {
      edit := edit.(name := Some(input.name));
    }
    if input.albumId != "" {
      edit := edit.(albumId := Some(input.albumId));
    }
    if edit == SongEdit(None, None) {
      return Fail(InternalServer(EMPTY_UPDATE));
    }
    if driver.Some? {
      return Fail(InternalServer(driver.value));
    }
    db.songs := EditRows(db.songs, input.id, edit);
    r := Pass;
  }
}
