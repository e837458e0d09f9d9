/**
  src/business/AlbumBusiness: a band creates an album tagged with known
  genres. Every genre is looked up before anything is written; then the album
  row and its genre links are written, with no rollback between them.
 */
module AlbumBusiness {
  import opened Errors
  import opened UserModel
  import opened BandModel
  import opened Records
  import opened Database
  import opened Authenticator
  import opened Authorization
  import AlbumDatabase
  import AlbumGenreDatabase
  import MusicGenreDatabase

  /** `AlbumInputDTO`; an absent field is the empty string. */
  datatype AlbumInput = AlbumInput(name: string, image: string, musicGenres: seq<MusicGenre>)

  const MISSING_PARAMETERS := "Missing parameters"
  const GENRE_INVALID := "Music genre invalid"

  /** Is every listed genre in the catalog? */
  predicate AllGenresKnown(genres: seq<GenreRow>, musicGenres: seq<MusicGenre>) {
    forall k :: 0 <= k < |musicGenres| ==> MusicGenreDatabase.GetMusicGenreById(genres, musicGenres[k].id).Some?
  }

  /**
    `createAlbum`. The creator is the caller; `id` is the generated id;
    `albumDriver` and `linkFailure` say which of the two writes fails, if any.
   */
  method CreateAlbum(db: Store, token: Token, input: AlbumInput, id: string,
                     albumDriver: Option<string>, linkFailure: Option<(nat, string)>)
    returns (r: Result<string>)
    modifies db`albums, db`albumGenres
    ensures var auth := Authorize(token, {BAND}, ONLY_BAND);
      if auth.Err? then
        r == Err(auth.error) && db.albums == old(db.albums) && db.albumGenres == old(db.albumGenres)
      else if input.name == "" || input.image == "" || auth.value.id == "" || |input.musicGenres| == 0 then
        r == Err(InvalidParameter(MISSING_PARAMETERS)) && db.albums == old(db.albums) && db.albumGenres == old(db.albumGenres)
      else if !AllGenresKnown(db.genres, input.musicGenres) then
        r == Err(InvalidParameter(GENRE_INVALID)) && db.albums == old(db.albums) && db.albumGenres == old(db.albumGenres)
      else if albumDriver.Some? then
        r == Err(InternalServer(albumDriver.value)) && db.albums == old(db.albums) && db.albumGenres == old(db.albumGenres)
      else
        db.albums == old(db.albums) + [AlbumRow(id, input.name, input.image, auth.value.id)] &&
        db.albumGenres == old(db.albumGenres) +
          AlbumGenreDatabase.GenreLinks(id, input.musicGenres[..AlbumGenreDatabase.Inserted(|input.musicGenres|, linkFailure)]) &&
        (if linkFailure.Some? && linkFailure.value.0 < |input.musicGenres|
         then r == Err(InternalServer(linkFailure.value.1))
         else r == Ok("Album created successfully"))
  {
    var auth := Authorize(token, {BAND}, ONLY_BAND);
    if auth.Err? {
      return Err(auth.error);
    }
    var creatorBandId := auth.value.id;
    if input.name == "" || input.image == "" || creatorBandId == "" || |input.musicGenres| == 0 {
      return Err(InvalidParameter(MISSING_PARAMETERS));
    }
    var i := 0;
    while i < |input.musicGenres|
      invariant 0 <= i <= |input.musicGenres|
      invariant forall k :: 0 <= k < i ==> MusicGenreDatabase.GetMusicGenreById(db.genres, input.musicGenres[k].id).Some?
    {
      var musicGenre := MusicGenreDatabase.GetMusicGenreById(db.genres, input.musicGenres[i].id);
      if musicGenre.None? {
        return Err(InvalidParameter(GENRE_INVALID));
      }
      i := i + 1;
    }
    var albumRow := AlbumRow(id, input.name, input.image, creatorBandId);
    var written := AlbumDatabase.CreateAlbum(db, albumRow, albumDriver);
    if written.Fail? {
      return Err(written.error);
    }
    var linked := AlbumGenreDatabase.CreateAlbum(db, Album(id, input.name, input.image, creatorBandId, input.musicGenres), linkFailure);
    if linked.Fail? {
      return Err(linked.error);
    }
    r := Ok("Album created successfully");
  }
}
