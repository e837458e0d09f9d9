/**
  src/data/PlaylistDatabase: the playlist table. Only `createPlaylist` is in
  the file; the other methods PlaylistBusiness calls are given the meaning
  the caller relies on, stated over the same table.
 */
module PlaylistDatabase {
  import opened Errors
  import opened Records
  import opened Database
  import opened Tables

  /** `createPlaylist`: one insert; `isPrivate` stored as 1/0. */
  method CreatePlaylist(db: Store, row: PlaylistRow, driver: Option<string>) returns (r: Outcome)
    modifies db`playlists
    ensures driver.Some? ==> r == Fail(InternalServer(driver.value)) && db.playlists == old(db.playlists)
    ensures driver.None? ==> r == Pass && db.playlists == old(db.playlists) + [row]
  {
    if driver.Some? {
      return Fail(InternalServer(driver.value));
    }
    db.playlists := db.playlists + [row];
    r := Pass;
  }

  /** A playlist row as a response record. */
  function ResponseOf(row: PlaylistRow): PlaylistResponse {
    PlaylistResponse(row.id, row.name, FlagToBool(Some(row.isPrivate)), row.userId, None)
  }

  /** `checkPlaylistCreatedByUser` (called, not shown): does `userId` own playlist `id`? */
  predicate CheckPlaylistCreatedByUser(playlists: seq<PlaylistRow>, id: string, userId: string) {
    exists i :: 0 <= i < |playlists| && playlists[i].id == id && playlists[i].userId == userId
  }

  /** `checkPlaylistPrivate` (called, not shown): is playlist `id` private? */
  predicate CheckPlaylistPrivate(playlists: seq<PlaylistRow>, id: string) {
    exists i :: 0 <= i < |playlists| && playlists[i].id == id && playlists[i].isPrivate != 0
  }

  /** The table after `publishPlaylist(id)`: that playlist made public. */
  function PublishRows(playlists: seq<PlaylistRow>, id: string): (r: seq<PlaylistRow>)
    ensures |r| == |playlists|
    ensures forall i :: 0 <= i < |playlists| ==> r[i] == if playlists[i].id == id then playlists[i].(isPrivate := 0) else playlists[i]
    ensures !CheckPlaylistPrivate(r, id)
  {
    Map(playlists, (row: PlaylistRow) => if row.id == id then row.(isPrivate := 0) else row)
  }

  /** Publishing keeps every owner: ids and owners are not touched. */
  lemma PublishKeepsOwner(playlists: seq<PlaylistRow>, id: string, playlistId: string, userId: string)
    ensures CheckPlaylistCreatedByUser(PublishRows(playlists, id), playlistId, userId) ==
            CheckPlaylistCreatedByUser(playlists, playlistId, userId)
  {
    var published := PublishRows(playlists, id);
    if CheckPlaylistCreatedByUser(playlists, playlistId, userId) {
      var i :| 0 <= i < |playlists| && playlists[i].id == playlistId && playlists[i].userId == userId;
      assert published[i].id == playlistId && published[i].userId == userId;
    }
    if CheckPlaylistCreatedByUser(published, playlistId, userId) {
      var i :| 0 <= i < |published| && published[i].id == playlistId && published[i].userId == userId;
      assert playlists[i].id == playlistId && playlists[i].userId == userId;
    }
  }

  /** `publishPlaylist` (called, not shown). */
  method PublishPlaylist(db: Store, id: string, driver: Option<string>) returns (r: Outcome)
    modifies db`playlists
    ensures driver.Some? ==> r == Fail(InternalServer(driver.value)) && db.playlists == old(db.playlists)
    ensures driver.None? ==> r == Pass && db.playlists == PublishRows(old(db.playlists), id)
  {
    if driver.Some? {
      return Fail(InternalServer(driver.value));
    }
    db.playlists := PublishRows(db.playlists, id);
    r := Pass;
  }

  /** The table after `editPlaylist({ id, name })`. */
  function RenameRows(playlists: seq<PlaylistRow>, id: string, name: string): (r: seq<PlaylistRow>)
    ensures |r| == |playlists|
    ensures forall i :: 0 <= i < |playlists| ==> r[i] == if playlists[i].id == id then playlists[i].(name := name) else playlists[i]
  {
    Map(playlists, (row: PlaylistRow) => if row.id == id then row.(name := name) else row)
  }

  /** `editPlaylist` (called, not shown). */
  method EditPlaylist(db: Store, id: string, name: string, driver: Option<string>) returns (r: Outcome)
    modifies db`playlists
    ensures driver.Some? ==> r == Fail(InternalServer(driver.value)) && db.playlists == old(db.playlists)
    ensures driver.None? ==> r == Pass && db.playlists == RenameRows(old(db.playlists), id, name)
  {
    if driver.Some? {
      return Fail(InternalServer(driver.value));
    }
    db.playlists := RenameRows(db.playlists, id, name);
    r := Pass;
  }

  predicate IsPublic(row: PlaylistRow) {
    row.isPrivate == 0
  }

  /** The public playlists, in table order. */
  function PublicPlaylists(playlists: seq<PlaylistRow>): (r: seq<PlaylistResponse>)
    ensures forall i :: 0 <= i < |r| ==> !r[i].isPrivate
    ensures forall x :: x in r <==> exists i :: 0 <= i < |playlists| && IsPublic(playlists[i]) && x == ResponseOf(playlists[i])
  {
    var rows := Filter(playlists, IsPublic);
    var result := Map(rows, ResponseOf);
    assert forall x :: x in result ==> exists i :: 0 <= i < |playlists| && IsPublic(playlists[i]) && x == ResponseOf(playlists[i]) by {
      forall x | x in result
        ensures exists i :: 0 <= i < |playlists| && IsPublic(playlists[i]) && x == ResponseOf(playlists[i])
      {
        var k :| 0 <= k < |result| && result[k] == x;
        assert rows[k] in playlists;
        var i :| 0 <= i < |playlists| && playlists[i] == rows[k];
      }
    }
    assert forall i :: 0 <= i < |playlists| && IsPublic(playlists[i]) ==> ResponseOf(playlists[i]) in result by {
      forall i | 0 <= i < |playlists| && IsPublic(playlists[i])
        ensures ResponseOf(playlists[i]) in result
      {
        assert playlists[i] in rows;
        var k :| 0 <= k < |rows| && rows[k] == playlists[i];
        assert result[k] == ResponseOf(playlists[i]);
      }
    }
    result
  }

  /** `getAllPublicPlaylists` (called, not shown): one page of the public playlists. */
  function GetAllPublicPlaylists(playlists: seq<PlaylistRow>, limit: nat, page: int): (r: Result<seq<PlaylistResponse>>)
    ensures r.Err? <==> Offset(limit, page) < 0
    ensures r.Ok? ==> |r.value| <= limit
    ensures r.Ok? ==> |r.value| == Min(limit, Max(0, |PublicPlaylists(playlists)| - Offset(limit, page)))
    ensures r.Ok? ==> forall i :: 0 <= i < |r.value| ==> r.value[i] in PublicPlaylists(playlists)
    ensures r.Ok? ==> forall i :: 0 <= i < |r.value| ==>
                        Offset(limit, page) + i < |PublicPlaylists(playlists)| &&
                        r.value[i] == PublicPlaylists(playlists)[Offset(limit, page) + i]
  {
    Window(PublicPlaylists(playlists), limit, page)
  }

  /** `countPublicPlaylist` (called, not shown). */
  function CountPublicPlaylist(playlists: seq<PlaylistRow>): (n: nat)
    ensures n <= |playlists|
    ensures n == |PublicPlaylists(playlists)|
  {
    |Filter(playlists, IsPublic)|
  }

  /** `getPlaylistById` (called, not shown): the first playlist with that id, or undefined. */
  function GetPlaylistById(playlists: seq<PlaylistRow>, id: string): (r: Option<PlaylistResponse>)
    ensures r.None? <==> forall i :: 0 <= i < |playlists| ==> playlists[i].id != id
    ensures r.Some? ==> r.value.id == id
  {
    match FirstIndex(playlists, (row: PlaylistRow) => row.id == id)
    case None => None
    case Some(i) => Some(ResponseOf(playlists[i]))
  }
}
