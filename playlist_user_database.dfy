/**
  src/data/PlaylistUserDatabase: who follows which playlist. The user column
  is read from `userId`, the field the business layer passes.
  `getAllPlaylistsByUserId`, which PlaylistBusiness calls, is not in the
  file; it is given the meaning the caller relies on: the playlists the user
  follows.
 */
module PlaylistUserDatabase {
  import opened Errors
  import opened Records
  import opened Database
  import opened Tables
  import PlaylistDatabase

  /** `followPlaylist`: one insert. */
  method FollowPlaylist(db: Store, follow: FollowRow, driver: Option<string>) returns (r: Outcome)
    modifies db`followers
    ensures driver.Some? ==> r == Fail(InternalServer(driver.value)) && db.followers == old(db.followers)
    ensures driver.None? ==> r == Pass && db.followers == old(db.followers) + [follow]
  {
    if driver.Some? {
      return Fail(InternalServer(driver.value));
    }
    db.followers := db.followers + [follow];
    r := Pass;
  }

  /** `checkPlaylistFollowed`: does the user follow the playlist? */
  function CheckPlaylistFollowed(followers: seq<FollowRow>, playlistId: string, userId: string): (r: bool)
    ensures r <==> FollowRow(playlistId, userId) in followers
  {
    var result := Filter(followers, (row: FollowRow) => row == FollowRow(playlistId, userId));
    if |result| > 0 then
      assert result[0] in followers;
      true
    else
      assert FollowRow(playlistId, userId) !in followers;
      false
  }

  /** After a follow insert, the check for that pair succeeds. */
  lemma FollowThenCheck(followers: seq<FollowRow>, playlistId: string, userId: string)
    ensures CheckPlaylistFollowed(followers + [FollowRow(playlistId, userId)], playlistId, userId)
  {
    assert (followers + [FollowRow(playlistId, userId)])[|followers|] == FollowRow(playlistId, userId);
  }

  /** `getAllPlaylistsByUserId` (called, not shown): the playlists `userId` follows, unpaged, in table order. */
  function GetAllPlaylistsByUserId(playlists: seq<PlaylistRow>, followers: seq<FollowRow>, userId: string): (r: seq<PlaylistResponse>)
    ensures |r| <= |playlists|
    ensures forall i :: 0 <= i < |r| ==> FollowRow(r[i].id, userId) in followers
    ensures forall x :: x in r <==> exists i :: 0 <= i < |playlists| && FollowRow(playlists[i].id, userId) in followers &&
                                               x == PlaylistDatabase.ResponseOf(playlists[i])
  {
    var rows := Filter(playlists, (row: PlaylistRow) => FollowRow(row.id, userId) in followers);
    var result := Map(rows, PlaylistDatabase.ResponseOf);
    assert forall x :: x in result ==> exists i :: 0 <= i < |playlists| && FollowRow(playlists[i].id, userId) in followers &&
                                                  x == PlaylistDatabase.ResponseOf(playlists[i]) by {
      forall x | x in result
        ensures exists i :: 0 <= i < |playlists| && FollowRow(playlists[i].id, userId) in followers &&
                            x == PlaylistDatabase.ResponseOf(playlists[i])
      {
        var k :| 0 <= k < |result| && result[k] == x;
        assert rows[k] in playlists;
        var i :| 0 <= i < |playlists| && playlists[i] == rows[k];
      }
    }
    assert forall i :: 0 <= i < |playlists| && FollowRow(playlists[i].id, userId) in followers ==>
                         PlaylistDatabase.ResponseOf(playlists[i]) in result by {
      forall i | 0 <= i < |playlists| && FollowRow(playlists[i].id, userId) in followers
        ensures PlaylistDatabase.ResponseOf(playlists[i]) in result
      {
        assert playlists[i] in rows;
        var k :| 0 <= k < |rows| && rows[k] == playlists[i];
        assert result[k] == PlaylistDatabase.ResponseOf(playlists[i]);
      }
    }
    result
  }

  /**
    The paged `getAllPlaylistsByUserId` of PlaylistDatabase (called, not
    shown): one page of the same list. It and the count below live here
    because they read the follower table.
   */
  function GetPlaylistsPageByUserId(playlists: seq<PlaylistRow>, followers: seq<FollowRow>, userId: string,
                                    limit: nat, page: int): (r: Result<seq<PlaylistResponse>>)
    ensures r.Err? <==> Offset(limit, page) < 0
    ensures r.Ok? ==> |r.value| <= limit
    ensures r.Ok? ==> |r.value| == Min(limit, Max(0, |GetAllPlaylistsByUserId(playlists, followers, userId)| - Offset(limit, page)))
    ensures r.Ok? ==> forall i :: 0 <= i < |r.value| ==> r.value[i] in GetAllPlaylistsByUserId(playlists, followers, userId)
    ensures r.Ok? ==> forall i :: 0 <= i < |r.value| ==>
                        Offset(limit, page) + i < |GetAllPlaylistsByUserId(playlists, followers, userId)| &&
                        r.value[i] == GetAllPlaylistsByUserId(playlists, followers, userId)[Offset(limit, page) + i]
  {
    Window(GetAllPlaylistsByUserId(playlists, followers, userId), limit, page)
  }

  /** `countPlaylistsByUserId` of PlaylistDatabase (called, not shown). */
  function CountPlaylistsByUserId(playlists: seq<PlaylistRow>, followers: seq<FollowRow>, userId: string): (n: nat)
    ensures n <= |playlists|
    ensures n == |GetAllPlaylistsByUserId(playlists, followers, userId)|
  {
    |Filter(playlists, (row: PlaylistRow) => FollowRow(row.id, userId) in followers)|
  }
}
