/**
  src/data/AlbumDatabase: one insert into the album table. `checkAlbumById`,
  which SongBusiness calls, is not in the file; it is given the meaning the
  caller relies on: is there an album row with that id?
 */
module AlbumDatabase {
  import opened Errors
  import opened Records
  import opened Database

  /** `createAlbum`: one insert. */
  method CreateAlbum(db: Store, album: AlbumRow, driver: Option<string>) returns (r: Outcome)
    modifies db`albums
    ensures driver.Some? ==> r == Fail(InternalServer(driver.value)) && db.albums == old(db.albums)
    ensures driver.None? ==> r == Pass && db.albums == old(db.albums) + [album]
  {
    if driver.Some? {
      return Fail(InternalServer(driver.value));
    }
    db.albums := db.albums + [album];
    r := Pass;
  }

  /** `checkAlbumById` (called, not shown): does an album with that id exist? */
  predicate CheckAlbumById(albums: seq<AlbumRow>, id: string) {
    exists i :: 0 <= i < |albums| && albums[i].id == id
  }
}
