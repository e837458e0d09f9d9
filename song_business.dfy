/**
  src/business/SongBusiness: bands add songs to existing albums, with a name
  unique within the album; listeners search and read songs.
 */
module SongBusiness {
  import opened Errors
  import opened UserModel
  import opened Records
  import opened Database
  import opened Tables
  import opened Authenticator
  import opened Authorization
  import AlbumDatabase
  import SongDatabase

  /** `SongInputDTO`; an absent field is the empty string. */
  datatype SongInput = SongInput(name: string, albumId: string)

  /** `SongQueryDTO` as the controller builds it. */
  datatype SongQuery = SongQuery(query: string, page: int)

  const SONG_PAGE_LIMIT: nat := 10

  const MISSING_PARAMETERS := "Missing parameters"
  const ALBUM_NOT_FOUND := "Album not found"
  const SONG_EXISTS := "Song already exists in this album"
  const SONG_NOT_FOUND := "Song not found"

  const LISTENERS := {FREE, PREMIUM}

  /** No two songs share both name and album. */
  ghost predicate UniqueNameInAlbum(songs: seq<SongRow>) {
    forall i, j :: 0 <= i < j < |songs| ==>
      !SongDatabase.SameNameAndAlbum(songs[j], songs[i].name, songs[i].albumId)
  }

  /**
    The guards of `createSong`, in order: a BAND caller, both fields present,
    an existing album, and no song of that name in it.
   */
  function CreateSongCheck(albums: seq<AlbumRow>, songs: seq<SongRow>, token: Token, input: SongInput): (r: Outcome)
    ensures var auth := Authorize(token, {BAND}, ONLY_BAND);
      (auth.Err? ==> r == Fail(auth.error)) &&
      (auth.Ok? && (input.name == "" || input.albumId == "") ==> r == Fail(InvalidParameter(MISSING_PARAMETERS))) &&
      (auth.Ok? && input.name != "" && input.albumId != "" && !AlbumDatabase.CheckAlbumById(albums, input.albumId) ==>
         r == Fail(NotFound(ALBUM_NOT_FOUND))) &&
      (auth.Ok? && input.name != "" && input.albumId != "" && AlbumDatabase.CheckAlbumById(albums, input.albumId) &&
       SongDatabase.CheckSongByNameAndAlbum(songs, input.name, input.albumId) ==>
         r == Fail(InvalidParameter(SONG_EXISTS)))
    ensures r == Pass <==>
      Authorize(token, {BAND}, ONLY_BAND).Ok? && input.name != "" && input.albumId != "" &&
      (exists i :: 0 <= i < |albums| && albums[i].id == input.albumId) &&
      (forall i :: 0 <= i < |songs| ==> !SongDatabase.SameNameAndAlbum(songs[i], input.name, input.albumId))
  {
    match Authorize(token, {BAND}, ONLY_BAND)
    case Err(e) => Fail(e)
    case Ok(_) =>
      if input.name == "" || input.albumId == "" then Fail(InvalidParameter(MISSING_PARAMETERS))
      else if !AlbumDatabase.CheckAlbumById(albums, input.albumId) then Fail(NotFound(ALBUM_NOT_FOUND))
      else if SongDatabase.CheckSongByNameAndAlbum(songs, input.name, input.albumId) then
        Fail(InvalidParameter(SONG_EXISTS))
      else Pass
  }

  /** `createSong` */
  method CreateSong(db: Store, token: Token, input: SongInput, id: string, driver: Option<string>)
    returns (r: Result<string>)
    modifies db`songs
    ensures var check := CreateSongCheck(db.albums, old(db.songs), token, input);
      if check.Fail? then r == Err(check.error) && db.songs == old(db.songs)
      else if driver.Some? then r == Err(InternalServer(driver.value)) && db.songs == old(db.songs)
      else db.songs == old(db.songs) + [SongRow(id, input.name, input.albumId)] && r == Ok("Song created successfully")
    ensures UniqueNameInAlbum(old(db.songs)) ==> UniqueNameInAlbum(db.songs)
  {
    var check := CreateSongCheck(db.albums, db.songs, token, input);
    if check.Fail? {
      return Err(check.error);
    }
    ghost var before := db.songs;
    var written := SongDatabase.CreateSong(db, SongRow(id, input.name, input.albumId), driver);
    if written.Fail? {
      return Err(written.error);
    }
    if UniqueNameInAlbum(before) {
      CreateKeepsUnique(before, SongRow(id, input.name, input.albumId));
    }
    r := Ok("Song created successfully");
  }

  /** Appending a song whose pair is not yet present keeps pairs unique. */
  lemma {:induction false} CreateKeepsUnique(songs: seq<SongRow>, song: SongRow)
    requires UniqueNameInAlbum(songs)
    requires forall i :: 0 <= i < |songs| ==> !SongDatabase.SameNameAndAlbum(songs[i], song.name, song.albumId)
    ensures UniqueNameInAlbum(songs + [song])
  {
    var extended := songs + [song];
    forall i, j | 0 <= i < j < |extended|
      ensures !SongDatabase.SameNameAndAlbum(extended[j], extended[i].name, extended[i].albumId)
    {
      if j < |songs| {
        assert extended[i] == songs[i] && extended[j] == songs[j];
      } else {
        assert extended[i] == songs[i] && extended[j] == song;
      }
    }
  }

  /** Creating the same song in the same album a second time is refused. */
  lemma {:induction false} CreateTwiceFails(albums: seq<AlbumRow>, songs: seq<SongRow>, token: Token, input: SongInput, id: string)
    requires CreateSongCheck(albums, songs, token, input) == Pass
    ensures CreateSongCheck(albums, songs + [SongRow(id, input.name, input.albumId)], token, input) ==
            Fail(InvalidParameter(SONG_EXISTS))
  {
    SongDatabase.CheckAfterCreate(songs, SongRow(id, input.name, input.albumId), input.name, input.albumId);
  }

  /** `getSongsByQuery`: listeners only, a non-empty query, pages of ten. */
  function GetSongsByQuery(songs: seq<SongRow>, token: Token, input: SongQuery): (r: Result<seq<SongSummary>>)
    ensures var auth := Authorize(token, LISTENERS, ONLY_LISTENER);
      (auth.Err? ==> r == Err(auth.error)) &&
      (auth.Ok? && input.query == "" ==> r == Err(InvalidParameter(MISSING_PARAMETERS))) &&
      (auth.Ok? && input.query != "" ==> r == SongDatabase.GetSongsByQuery(songs, input.query, SONG_PAGE_LIMIT, input.page))
    ensures r.Ok? ==> |r.value| <= SONG_PAGE_LIMIT
    ensures r.Ok? ==> forall i :: 0 <= i < |r.value| ==> r.value[i].name == input.query
  {
    var _ :- Authorize(token, LISTENERS, ONLY_LISTENER);
    if input.query == "" then Err(InvalidParameter(MISSING_PARAMETERS))
    else SongDatabase.GetSongsByQuery(songs, input.query, SONG_PAGE_LIMIT, input.page)
  }

  /**
    `getSongById` as written: the gateway throws before the `!song` test can
    see an absent song, so that test never fires.
   */
  function GetSongById(songs: seq<SongRow>, albums: seq<AlbumRow>, users: seq<UserRow>, token: Token, songId: string): (r: Result<Song>)
    ensures var auth := Authorize(token, LISTENERS, ONLY_LISTENER);
      (auth.Err? ==> r == Err(auth.error)) &&
      (auth.Ok? ==> r == SongDatabase.GetSongById(songs, albums, users, songId))
    ensures r.Err? ==> !r.error.NotFound?
  {
    var _ :- Authorize(token, LISTENERS, ONLY_LISTENER);
    var song :- SongDatabase.GetSongById(songs, albums, users, songId);
    Ok(song)
  }

  /** An unknown song id reaches the listener as a server error, never as "Song not found". */
  lemma UnknownSongIsServerError(songs: seq<SongRow>, albums: seq<AlbumRow>, users: seq<UserRow>, token: Token, songId: string)
    requires Authorize(token, LISTENERS, ONLY_LISTENER).Ok?
    requires forall i :: 0 <= i < |songs| ==> songs[i].id != songId
    ensures GetSongById(songs, albums, users, token, songId) == Err(InternalServer(SongDatabase.UNDEFINED_ROW))
  {
  }

  /** `getSongById` with the evidently intended absent-song answer: NotFound. */
  function GetSongByIdCorrected(songs: seq<SongRow>, albums: seq<AlbumRow>, users: seq<UserRow>, token: Token, songId: string): (r: Result<Song>)
    ensures var auth := Authorize(token, LISTENERS, ONLY_LISTENER);
      (auth.Err? ==> r == Err(auth.error)) &&
      (auth.Ok? && (forall i :: 0 <= i < |songs| ==> songs[i].id != songId) ==> r == Err(NotFound(SONG_NOT_FOUND)))
    ensures r.Ok? ==> r.value.id == songId && GetSongById(songs, albums, users, token, songId) == r
    ensures Authorize(token, LISTENERS, ONLY_LISTENER).Ok? ==>
              (r == Err(NotFound(SONG_NOT_FOUND)) <==> GetSongById(songs, albums, users, token, songId).Err?)
  {
    var _ :- Authorize(token, LISTENERS, ONLY_LISTENER);
    match SongDatabase.FindSongById(songs, albums, users, songId)
    case None => Err(NotFound(SONG_NOT_FOUND))
    case Some(song) => Ok(song)
  }
}
