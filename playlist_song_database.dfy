/**
  src/data/PlaylistSongDatabase: which songs are in which playlist.
  `getSongsByPlaylistId`, which PlaylistBusiness calls, is not in the file;
  it is given the meaning the caller relies on: one page of the playlist's songs.
 */
module PlaylistSongDatabase {
  import opened Errors
  import opened Records
  import opened Database
  import opened Tables

  /** `addSongToPlaylist`: one insert. */
  method AddSongToPlaylist(db: Store, link: PlaylistSongRow, driver: Option<string>) returns (r: Outcome)
    modifies db`playlistSongs
    ensures driver.Some? ==> r == Fail(InternalServer(driver.value)) && db.playlistSongs == old(db.playlistSongs)
    ensures driver.None? ==> r == Pass && db.playlistSongs == old(db.playlistSongs) + [link]
  {
    if driver.Some? {
      return Fail(InternalServer(driver.value));
    }
    db.playlistSongs := db.playlistSongs + [link];
    r := Pass;
  }

  /** `checkSongInPlaylist`: is the pair in the table? */
  function CheckSongInPlaylist(links: seq<PlaylistSongRow>, link: PlaylistSongRow): (r: bool)
    ensures r <==> link in links
  {
    var result := Filter(links, (row: PlaylistSongRow) => row == link);
    if |result| > 0 then
      assert result[0] in links;
      true
    else
      assert link !in links;
      false
  }

  /** The table after `delete().where({ playlist_id, song_id })`. */
  function RemoveLinks(links: seq<PlaylistSongRow>, link: PlaylistSongRow): (r: seq<PlaylistSongRow>)
    ensures link !in r
    ensures forall x :: x in r <==> x in links && x != link
    ensures forall x :: x != link ==> multiset(r)[x] == multiset(links)[x]
  {
    var rest := Filter(links, (row: PlaylistSongRow) => row != link);
    forall x | x != link
      ensures multiset(rest)[x] == multiset(links)[x]
    {
      FilterMultiset(links, (row: PlaylistSongRow) => row != link, x);
    }
    rest
  }

  /** `removeSongFromPlaylist`: deletes every copy of the pair and nothing else. */
  method RemoveSongFromPlaylist(db: Store, link: PlaylistSongRow, driver: Option<string>) returns (r: Outcome)
    modifies db`playlistSongs
    ensures driver.Some? ==> r == Fail(InternalServer(driver.value)) && db.playlistSongs == old(db.playlistSongs)
    ensures driver.None? ==> r == Pass && db.playlistSongs == RemoveLinks(old(db.playlistSongs), link)
  {
    if driver.Some? {
      return Fail(InternalServer(driver.value));
    }
    db.playlistSongs := RemoveLinks(db.playlistSongs, link);
    r := Pass;
  }

  /** After adding a pair, the check finds it. */
  lemma AddThenCheck(links: seq<PlaylistSongRow>, link: PlaylistSongRow)
    ensures CheckSongInPlaylist(links + [link], link)
  {
    assert (links + [link])[|links|] == link;
  }

  /** After removing a pair, the check no longer finds it, and every other pair's answer is kept. */
  lemma RemoveThenCheck(links: seq<PlaylistSongRow>, link: PlaylistSongRow, other: PlaylistSongRow)
    ensures !CheckSongInPlaylist(RemoveLinks(links, link), link)
    ensures other != link ==> CheckSongInPlaylist(RemoveLinks(links, link), other) == CheckSongInPlaylist(links, other)
  {
  }

  /** `getSongsByPlaylistId` (called, not shown): one page of the playlist's song ids, in table order. */
  function GetSongsByPlaylistId(links: seq<PlaylistSongRow>, playlistId: string, limit: nat, page: int): (r: Result<seq<string>>)
    ensures r.Err? <==> Offset(limit, page) < 0
    ensures r.Ok? ==> |r.value| <= limit
    ensures r.Ok? ==> forall i :: 0 <= i < |r.value| ==> PlaylistSongRow(playlistId, r.value[i]) in links
  {
    var songs := Map(Filter(links, (row: PlaylistSongRow) => row.playlistId == playlistId), (row: PlaylistSongRow) => row.songId);
    var r := Window(songs, limit, page);
    if r.Ok? then
      assert forall i :: 0 <= i < |songs| ==> PlaylistSongRow(playlistId, songs[i]) in links by {
        var rows := Filter(links, (row: PlaylistSongRow) => row.playlistId == playlistId);
        forall i | 0 <= i < |songs|
          ensures PlaylistSongRow(playlistId, songs[i]) in links
        {
          assert rows[i] in links && rows[i] == PlaylistSongRow(playlistId, songs[i]);
        }
      }
      r
    else r
  }
}
