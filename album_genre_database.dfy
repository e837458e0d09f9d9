/**
  src/data/AlbumGenreDatabase: one link row per genre of an album, inserted
  one statement at a time with no transaction around them.
 */
module AlbumGenreDatabase {
  import opened Errors
  import opened BandModel
  import opened Records
  import opened Database

  /** The link rows for `genres`, in list order, all carrying `albumId`. */
  function GenreLinks(albumId: string, genres: seq<MusicGenre>): (r: seq<AlbumGenreRow>)
    ensures |r| == |genres|
    ensures forall i :: 0 <= i < |genres| ==> r[i] == AlbumGenreRow(albumId, genres[i].id)
  {
    if genres == [] then []
    else GenreLinks(albumId, genres[..|genres| - 1]) + [AlbumGenreRow(albumId, genres[|genres| - 1].id)]
  }

  /** How many inserts succeed when insert number `failure.0` (from 0) is the one that fails. */
  function Inserted(count: nat, failure: Option<(nat, string)>): (n: nat)
    ensures n <= count
    ensures n < count <==> failure.Some? && failure.value.0 < count
    ensures failure.Some? && failure.value.0 < count ==> n == failure.value.0
  {
    if failure.Some? && failure.value.0 < count then failure.value.0 else count
  }

  /**
    `createAlbum`: the loop over the album's genres. A failing insert stops the
    loop with an InternalServerError and leaves the earlier links in place.
   */
  method CreateAlbum(db: Store, album: Album, failure: Option<(nat, string)>) returns (r: Outcome)
    modifies db`albumGenres
    ensures var n := Inserted(|album.musicGenres|, failure);
      db.albumGenres == old(db.albumGenres) + GenreLinks(album.id, album.musicGenres[..n])
    ensures r.Fail? <==> failure.Some? && failure.value.0 < |album.musicGenres|
    ensures r.Fail? ==> r.error == InternalServer(failure.value.1)
  {
    var musicGenres := album.musicGenres;
    var i := 0;
    while i < |musicGenres|
      invariant 0 <= i <= |musicGenres|
      invariant failure.Some? ==> i <= failure.value.0
      invariant db.albumGenres == old(db.albumGenres) + GenreLinks(album.id, musicGenres[..i])
    {
      if failure.Some? && failure.value.0 == i {
        return Fail(InternalServer(failure.value.1));
      }
      assert musicGenres[..i + 1][..i] == musicGenres[..i];
      db.albumGenres := db.albumGenres + [AlbumGenreRow(album.id, musicGenres[i].id)];
      i := i + 1;
    }
    assert musicGenres[..i] == musicGenres;
    r := Pass;
  }
}
