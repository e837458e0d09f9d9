/**
  src/business/MusicGenreBusiness: admins add genres with unique names; any
  signed-in user reads the catalog.
 */
module MusicGenreBusiness {
  import opened Errors
  import opened UserModel
  import opened BandModel
  import opened Records
  import opened Database
  import opened Authenticator
  import opened Authorization
  import MusicGenreDatabase

  const MISSING_PARAMETERS := "Missing parameters"
  const GENRE_EXISTS := "Music genre has already been created"

  /** No two genres share a name. */
  ghost predicate UniqueGenreNames(genres: seq<GenreRow>) {
    forall i, j :: 0 <= i < j < |genres| ==> genres[i].name != genres[j].name
  }

  /** The guards of `createMusicGenre`: an admin caller, a name, and a name not yet in the catalog. */
  function CreateMusicGenreCheck(genres: seq<GenreRow>, token: Token, name: string): (r: Outcome)
    ensures var auth := Authorize(token, {ADMIN}, ONLY_ADMIN);
      (auth.Err? ==> r == Fail(auth.error)) &&
      (auth.Ok? && name == "" ==> r == Fail(InvalidParameter(MISSING_PARAMETERS))) &&
      (auth.Ok? && name != "" && MusicGenreDatabase.GetMusicGenreByName(genres, name).Some? ==>
         r == Fail(InvalidParameter(GENRE_EXISTS)))
    ensures r == Pass <==>
      Authorize(token, {ADMIN}, ONLY_ADMIN).Ok? && name != "" &&
      forall i :: 0 <= i < |genres| ==> genres[i].name != name
  {
    match Authorize(token, {ADMIN}, ONLY_ADMIN)
    case Err(e) => Fail(e)
    case Ok(_) =>
      if name == "" then Fail(InvalidParameter(MISSING_PARAMETERS))
      else if MusicGenreDatabase.GetMusicGenreByName(genres, name).Some? then Fail(InvalidParameter(GENRE_EXISTS))
      else Pass
  }

  /** `createMusicGenre`: on success exactly one genre is added, and names stay unique. */
  method CreateMusicGenre(db: Store, token: Token, name: string, id: string, driver: Option<string>)
    returns (r: Result<string>)
    modifies db`genres
    ensures var check := CreateMusicGenreCheck(old(db.genres), token, name);
      if check.Fail? then r == Err(check.error) && db.genres == old(db.genres)
      else if driver.Some? then r == Err(InternalServer(driver.value)) && db.genres == old(db.genres)
      else db.genres == old(db.genres) + [GenreRow(id, name)] && r == Ok("Music genre created successfully")
    ensures UniqueGenreNames(old(db.genres)) ==> UniqueGenreNames(db.genres)
  {
    var check := CreateMusicGenreCheck(db.genres, token, name);
    if check.Fail? {
      return Err(check.error);
    }
    ghost var before := db.genres;
    var written := MusicGenreDatabase.CreateMusicGenre(db, GenreRow(id, name), driver);
    if written.Fail? {
      return Err(written.error);
    }
    if UniqueGenreNames(before) {
      AppendKeepsUnique(before, GenreRow(id, name));
    }
    r := Ok("Music genre created successfully");
  }

  lemma {:induction false} AppendKeepsUnique(genres: seq<GenreRow>, genre: GenreRow)
    requires UniqueGenreNames(genres)
    requires forall i :: 0 <= i < |genres| ==> genres[i].name != genre.name
    ensures UniqueGenreNames(genres + [genre])
  {
    var extended := genres + [genre];
    forall i, j | 0 <= i < j < |extended|
      ensures extended[i].name != extended[j].name
    {
      assert extended[i] == genres[i];
      if j < |genres| {
        assert extended[j] == genres[j];
      } else {
        assert extended[j] == genre;
      }
    }
  }

  /** Creating a genre a second time under the same name is refused. */
  lemma {:induction false} CreateGenreTwiceFails(genres: seq<GenreRow>, token: Token, name: string, id: string)
    requires CreateMusicGenreCheck(genres, token, name) == Pass
    ensures CreateMusicGenreCheck(genres + [GenreRow(id, name)], token, name) == Fail(InvalidParameter(GENRE_EXISTS))
  {
    assert (genres + [GenreRow(id, name)])[|genres|].name == name;
  }

  /** `getAllMusicGenres`: a decodable token, then the whole catalog. */
  function GetAllMusicGenres(genres: seq<GenreRow>, token: Token): (r: Result<seq<MusicGenre>>)
    ensures r.Ok? <==> GetData(token).Ok?
    ensures r.Err? ==> r.error == GetData(token).error
    ensures r.Ok? ==> r.value == MusicGenreDatabase.GetAllMusicGenres(genres)
  {
    var _ :- GetData(token);
    Ok(MusicGenreDatabase.GetAllMusicGenres(genres))
  }
}
