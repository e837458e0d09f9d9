/**
  src/data/MusicGenreDatabase: the genre catalog, one statement per method.
 */
module MusicGenreDatabase {
  import opened Errors
  import opened BandModel
  import opened Records
  import opened Database
  import opened Tables

  /** A catalog row as the gateway returns it. */
  function GenreOf(row: GenreRow): MusicGenre {
    MusicGenre(row.id, Some(row.name))
  }

  /** `createMusicGenre`: one insert. */
  method CreateMusicGenre(db: Store, genre: GenreRow, driver: Option<string>) returns (r: Outcome)
    modifies db`genres
    ensures driver.Some? ==> r == Fail(InternalServer(driver.value)) && db.genres == old(db.genres)
    ensures driver.None? ==> r == Pass && db.genres == old(db.genres) + [genre]
  {
    if driver.Some? {
      return Fail(InternalServer(driver.value));
    }
    db.genres := db.genres + [genre];
    r := Pass;
  }

  /** `getMusicGenreByName`: the first genre with that name, or undefined. */
  function GetMusicGenreByName(genres: seq<GenreRow>, name: string): (r: Option<MusicGenre>)
    ensures r.None? <==> forall i :: 0 <= i < |genres| ==> genres[i].name != name
    ensures r.Some? ==> r.value.name == Some(name)
  {
    match FirstIndex(genres, (g: GenreRow) => g.name == name)
    case None => None
    case Some(i) => Some(GenreOf(genres[i]))
  }

  /** `getMusicGenreById`: the first genre with that id, or undefined. */
  function GetMusicGenreById(genres: seq<GenreRow>, id: string): (r: Option<MusicGenre>)
    ensures r.None? <==> forall i :: 0 <= i < |genres| ==> genres[i].id != id
    ensures r.Some? ==> r.value.id == id
  {
    match FirstIndex(genres, (g: GenreRow) => g.id == id)
    case None => None
    case Some(i) => Some(GenreOf(genres[i]))
  }

  /** `getAllMusicGenres`: the whole catalog, in table order. */
  function GetAllMusicGenres(genres: seq<GenreRow>): (r: seq<MusicGenre>)
    ensures |r| == |genres|
    ensures forall i :: 0 <= i < |genres| ==> r[i].id == genres[i].id && r[i].name == Some(genres[i].name)
  {
    Map(genres, GenreOf)
  }
}
