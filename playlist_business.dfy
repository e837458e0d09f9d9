/**
  src/business/PlaylistBusiness: premium users' playlists. A playlist starts
  private and followed by its creator; songs are added and removed only by
  followers; the creator publishes it once; only public playlists can be
  followed.
 */
module PlaylistBusiness {
  import opened Errors
  import opened UserModel
  import opened Records
  import opened Database
  import opened Tables
  import opened Authenticator
  import opened Authorization
  import PlaylistDatabase
  import PlaylistUserDatabase
  import PlaylistSongDatabase

  /** `PlaylistSongDTO`: a playlist id and a song id. */
  datatype PlaylistSongInput = PlaylistSongInput(id: string, songId: string)

  /** `GetPlaylistInputDTO` for `getPlaylistById`. */
  datatype GetPlaylistInput = GetPlaylistInput(id: string, page: int)

  /** `EditPlaylistDTO` */
  datatype EditPlaylistInput = EditPlaylistInput(id: string, name: string)

  const PLAYLIST_PAGE_LIMIT: nat := 10

  const MISSING_PARAMETERS := "Missing parameters"
  const NOT_FOLLOWED := "Playlist is not followed by user"
  const SONG_NOT_IN_PLAYLIST := "Song is not in this playlist"
  const NOT_CREATOR := "Playlist not created by user"
  const ALREADY_PUBLISHED := "Playlist has already been published"
  const NOT_PUBLISHED := "Playlist has not been published yet"

  function Premium(token: Token): Result<AuthenticationData> {
    Authorize(token, {PREMIUM}, ONLY_PREMIUM)
  }

  /** Every playlist is followed by its creator. */
  ghost predicate CreatorsFollow(playlists: seq<PlaylistRow>, followers: seq<FollowRow>) {
    forall i :: 0 <= i < |playlists| ==> FollowRow(playlists[i].id, playlists[i].userId) in followers
  }

  /**
    `createPlaylist`: a private playlist owned by the caller, then the
    caller's follow. The two inserts are not atomic: when the second fails
    the playlist stays, without its follower.
   */
  method CreatePlaylist(db: Store, token: Token, name: string, id: string,
                        playlistDriver: Option<string>, followDriver: Option<string>)
    returns (r: Result<string>)
    modifies db`playlists, db`followers
    ensures var auth := Premium(token);
      if auth.Err? then
        r == Err(auth.error) && db.playlists == old(db.playlists) && db.followers == old(db.followers)
      else if name == "" then
        r == Err(InvalidParameter(MISSING_PARAMETERS)) && db.playlists == old(db.playlists) && db.followers == old(db.followers)
      else if playlistDriver.Some? then
        r == Err(InternalServer(playlistDriver.value)) && db.playlists == old(db.playlists) && db.followers == old(db.followers)
      else
        db.playlists == old(db.playlists) + [PlaylistRow(id, name, 1, auth.value.id)] &&
        (if followDriver.Some? then r == Err(InternalServer(followDriver.value)) && db.followers == old(db.followers)
         else r == Ok("Playlist created successfully") && db.followers == old(db.followers) + [FollowRow(id, auth.value.id)])
    ensures r.Ok? && CreatorsFollow(old(db.playlists), old(db.followers)) ==> CreatorsFollow(db.playlists, db.followers)
  {
    var auth := Premium(token);
    if auth.Err? {
      return Err(auth.error);
    }
    if name == "" {
      return Err(InvalidParameter(MISSING_PARAMETERS));
    }
    ghost var oldPlaylists, oldFollowers := db.playlists, db.followers;
    var isPrivate := true;
    var userId := auth.value.id;
    var created := PlaylistDatabase.CreatePlaylist(db, PlaylistRow(id, name, BoolToFlag(isPrivate), userId), playlistDriver);
    if created.Fail? {
      return Err(created.error);
    }
    var followed := PlaylistUserDatabase.FollowPlaylist(db, FollowRow(id, userId), followDriver);
    if followed.Fail? {
      return Err(followed.error);
    }
    if CreatorsFollow(oldPlaylists, oldFollowers) {
      forall i | 0 <= i < |db.playlists|
        ensures FollowRow(db.playlists[i].id, db.playlists[i].userId) in db.followers
      {
        if i < |oldPlaylists| {
          assert db.playlists[i] == oldPlaylists[i];
        } else {
          assert db.followers[|oldFollowers|] == FollowRow(id, userId);
        }
      }
    }
    r := Ok("Playlist created successfully");
  }

  /** The guards of `addSongToPlaylist`: a premium caller, both ids, and a followed playlist. */
  function AddSongCheck(followers: seq<FollowRow>, token: Token, input: PlaylistSongInput): (r: Outcome)
    ensures var auth := Premium(token);
      (auth.Err? ==> r == Fail(auth.error)) &&
      (auth.Ok? && (input.id == "" || input.songId == "") ==> r == Fail(InvalidParameter(MISSING_PARAMETERS))) &&
      (r == Pass <==> auth.Ok? && input.id != "" && input.songId != "" && FollowRow(input.id, auth.value.id) in followers) &&
      (auth.Ok? && input.id != "" && input.songId != "" && FollowRow(input.id, auth.value.id) !in followers ==>
         r == Fail(InvalidParameter(NOT_FOLLOWED)))
  {
    match Premium(token)
    case Err(e) => Fail(e)
    case Ok(auth) =>
      if input.id == "" || input.songId == "" then Fail(InvalidParameter(MISSING_PARAMETERS))
      else if !PlaylistUserDatabase.CheckPlaylistFollowed(followers, input.id, auth.id) then Fail(InvalidParameter(NOT_FOLLOWED))
      else Pass
  }

  /** `addSongToPlaylist` */
  method AddSongToPlaylist(db: Store, token: Token, input: PlaylistSongInput, driver: Option<string>) returns (r: Result<string>)
    modifies db`playlistSongs
    ensures var check := AddSongCheck(db.followers, token, input);
      if check.Fail? then r == Err(check.error) && db.playlistSongs == old(db.playlistSongs)
      else if driver.Some? then r == Err(InternalServer(driver.value)) && db.playlistSongs == old(db.playlistSongs)
      else db.playlistSongs == old(db.playlistSongs) + [PlaylistSongRow(input.id, input.songId)] &&
           r == Ok("Song added to playlist successfully")
  {
    var check := AddSongCheck(db.followers, token, input);
    if check.Fail? {
      return Err(check.error);
    }
    var written := PlaylistSongDatabase.AddSongToPlaylist(db, PlaylistSongRow(input.id, input.songId), driver);
    if written.Fail? {
      return Err(written.error);
    }
    r := Ok("Song added to playlist successfully");
  }

  /** The guards of `removeSongFromPlaylist`: those of adding, then the song must be in the playlist. */
  function RemoveSongCheck(followers: seq<FollowRow>, links: seq<PlaylistSongRow>, token: Token, input: PlaylistSongInput): (r: Outcome)
    ensures AddSongCheck(followers, token, input).Fail? ==> r == AddSongCheck(followers, token, input)
    ensures AddSongCheck(followers, token, input) == Pass && PlaylistSongRow(input.id, input.songId) !in links ==>
              r == Fail(InvalidParameter(SONG_NOT_IN_PLAYLIST))
    ensures r == Pass <==> AddSongCheck(followers, token, input) == Pass && PlaylistSongRow(input.id, input.songId) in links
  {
    match Premium(token)
    case Err(e) => Fail(e)
    case Ok(auth) =>
      if input.id == "" || input.songId == "" then Fail(InvalidParameter(MISSING_PARAMETERS))
      else if !PlaylistUserDatabase.CheckPlaylistFollowed(followers, input.id, auth.id) then Fail(InvalidParameter(NOT_FOLLOWED))
      else if !PlaylistSongDatabase.CheckSongInPlaylist(links, PlaylistSongRow(input.id, input.songId)) then
        Fail(InvalidParameter(SONG_NOT_IN_PLAYLIST))
      else Pass
  }

  /** `removeSongFromPlaylist` */
  method RemoveSongFromPlaylist(db: Store, token: Token, input: PlaylistSongInput, driver: Option<string>) returns (r: Result<string>)
    modifies db`playlistSongs
    ensures var check := RemoveSongCheck(db.followers, old(db.playlistSongs), token, input);
      if check.Fail? then r == Err(check.error) && db.playlistSongs == old(db.playlistSongs)
      else if driver.Some? then r == Err(InternalServer(driver.value)) && db.playlistSongs == old(db.playlistSongs)
      else db.playlistSongs == PlaylistSongDatabase.RemoveLinks(old(db.playlistSongs), PlaylistSongRow(input.id, input.songId)) &&
           r == Ok("Song removed from playlist successfully")
  {
    var check := RemoveSongCheck(db.followers, db.playlistSongs, token, input);
    if check.Fail? {
      return Err(check.error);
    }
    var written := PlaylistSongDatabase.RemoveSongFromPlaylist(db, PlaylistSongRow(input.id, input.songId), driver);
    if written.Fail? {
      return Err(written.error);
    }
    r := Ok("Song removed from playlist successfully");
  }

  /** A song just added can be removed by the same caller, and is then gone. */
  lemma {:induction false} AddThenRemove(followers: seq<FollowRow>, links: seq<PlaylistSongRow>, token: Token, input: PlaylistSongInput)
    requires AddSongCheck(followers, token, input) == Pass
    ensures RemoveSongCheck(followers, links + [PlaylistSongRow(input.id, input.songId)], token, input) == Pass
    ensures RemoveSongCheck(followers,
                            PlaylistSongDatabase.RemoveLinks(links + [PlaylistSongRow(input.id, input.songId)],
                                                             PlaylistSongRow(input.id, input.songId)),
                            token, input) == Fail(InvalidParameter(SONG_NOT_IN_PLAYLIST))
  {
    PlaylistSongDatabase.AddThenCheck(links, PlaylistSongRow(input.id, input.songId));
  }

  /** `getAllPlaylistsByUserId`: without a page, every followed playlist; with one, a page of ten and the count. */
  function GetAllPlaylistsByUserId(playlists: seq<PlaylistRow>, followers: seq<FollowRow>, token: Token, page: int): (r: Result<PlaylistPage>)
    ensures Premium(token).Err? ==> r == Err(Premium(token).error)
    ensures Premium(token).Ok? && page == 0 ==>
              r == Ok(PlaylistPage(PlaylistUserDatabase.GetAllPlaylistsByUserId(playlists, followers, Premium(token).value.id), None))
    ensures Premium(token).Ok? && page != 0 ==> (r.Err? <==> page < 1)
    ensures Premium(token).Ok? && page != 0 && r.Ok? ==>
              r.value.playlists == PlaylistUserDatabase.GetPlaylistsPageByUserId(playlists, followers, Premium(token).value.id,
                                                                                PLAYLIST_PAGE_LIMIT, page).value
    ensures r.Ok? && page != 0 ==>
              |r.value.playlists| <= PLAYLIST_PAGE_LIMIT &&
              r.value.quantity == Some(PlaylistUserDatabase.CountPlaylistsByUserId(playlists, followers, Premium(token).value.id))
    ensures r.Ok? ==> forall i :: 0 <= i < |r.value.playlists| ==>
                        FollowRow(r.value.playlists[i].id, Premium(token).value.id) in followers
  {
    var auth :- Premium(token);
    if page == 0 then
      Ok(PlaylistPage(PlaylistUserDatabase.GetAllPlaylistsByUserId(playlists, followers, auth.id), None))
    else
      var found :- PlaylistUserDatabase.GetPlaylistsPageByUserId(playlists, followers, auth.id, PLAYLIST_PAGE_LIMIT, page);
      Ok(PlaylistPage(found, Some(PlaylistUserDatabase.CountPlaylistsByUserId(playlists, followers, auth.id))))
  }

  /**
    `getAllPublicPlaylists`: a page of ten public playlists, each marked with
    whether the caller follows it, in the page's order, and the count.
   */
  method GetAllPublicPlaylists(db: Store, token: Token, page: int) returns (r: Result<PlaylistPage>)
    ensures Premium(token).Err? ==> r == Err(Premium(token).error)
    ensures Premium(token).Ok? && page == 0 ==> r == Err(InvalidParameter(MISSING_PARAMETERS))
    ensures var found := PlaylistDatabase.GetAllPublicPlaylists(db.playlists, PLAYLIST_PAGE_LIMIT, page);
      Premium(token).Ok? && page != 0 && found.Err? ==> r == Err(found.error)
    ensures var found := PlaylistDatabase.GetAllPublicPlaylists(db.playlists, PLAYLIST_PAGE_LIMIT, page);
      Premium(token).Ok? && page != 0 && found.Ok? ==>
        r.Ok? && |r.value.playlists| == |found.value| &&
        r.value.quantity == Some(PlaylistDatabase.CountPublicPlaylist(db.playlists)) &&
        forall k :: 0 <= k < |found.value| ==>
          r.value.playlists[k] == found.value[k].(isFollowed :=
            Some(PlaylistUserDatabase.CheckPlaylistFollowed(db.followers, found.value[k].id, Premium(token).value.id)))
  {
    var auth := Premium(token);
    if auth.Err? {
      return Err(auth.error);
    }
    if page == 0 {
      return Err(InvalidParameter(MISSING_PARAMETERS));
    }
    var found := PlaylistDatabase.GetAllPublicPlaylists(db.playlists, PLAYLIST_PAGE_LIMIT, page);
    if found.Err? {
      return Err(found.error);
    }
    var playlistsResponse := found.value;
    var userId := auth.value.id;
    var playlists: seq<PlaylistResponse> := [];
    var i := 0;
    while i < |playlistsResponse|
      invariant 0 <= i <= |playlistsResponse|
      invariant |playlists| == i
      invariant forall k :: 0 <= k < i ==>
        playlists[k] == playlistsResponse[k].(isFollowed :=
          Some(PlaylistUserDatabase.CheckPlaylistFollowed(db.followers, playlistsResponse[k].id, userId)))
    {
      var item := playlistsResponse[i];
      var isFollowed := PlaylistUserDatabase.CheckPlaylistFollowed(db.followers, item.id, userId);
      playlists := playlists + [item.(isFollowed := Some(isFollowed))];
      i := i + 1;
    }
    var quantity := PlaylistDatabase.CountPublicPlaylist(db.playlists);
    r := Ok(PlaylistPage(playlists, Some(quantity)));
  }

  /** The guards of `publishPlaylist`: a premium caller, an id, the caller's own playlist, still private. */
  function PublishCheck(playlists: seq<PlaylistRow>, token: Token, id: string): (r: Outcome)
    ensures var auth := Premium(token);
      (auth.Err? ==> r == Fail(auth.error)) &&
      (auth.Ok? && id == "" ==> r == Fail(InvalidParameter(MISSING_PARAMETERS))) &&
      (auth.Ok? && id != "" && !PlaylistDatabase.CheckPlaylistCreatedByUser(playlists, id, auth.value.id) ==>
         r == Fail(InvalidParameter(NOT_CREATOR))) &&
      ((auth.Ok? && id != "" && PlaylistDatabase.CheckPlaylistCreatedByUser(playlists, id, auth.value.id) &&
        !PlaylistDatabase.CheckPlaylistPrivate(playlists, id)) ==> r == Fail(InvalidParameter(ALREADY_PUBLISHED))) &&
      (r == Pass <==> auth.Ok? && id != "" && PlaylistDatabase.CheckPlaylistCreatedByUser(playlists, id, auth.value.id) &&
                      PlaylistDatabase.CheckPlaylistPrivate(playlists, id))
  {
    match Premium(token)
    case Err(e) => Fail(e)
    case Ok(auth) =>
      if id == "" then Fail(InvalidParameter(MISSING_PARAMETERS))
      else if !PlaylistDatabase.CheckPlaylistCreatedByUser(playlists, id, auth.id) then Fail(InvalidParameter(NOT_CREATOR))
      else if !PlaylistDatabase.CheckPlaylistPrivate(playlists, id) then Fail(InvalidParameter(ALREADY_PUBLISHED))
      else Pass
  }

  /** `publishPlaylist` */
  method PublishPlaylist(db: Store, token: Token, id: string, driver: Option<string>) returns (r: Result<string>)
    modifies db`playlists
    ensures var check := PublishCheck(old(db.playlists), token, id);
      if check.Fail? then r == Err(check.error) && db.playlists == old(db.playlists)
      else if driver.Some? then r == Err(InternalServer(driver.value)) && db.playlists == old(db.playlists)
      else db.playlists == PlaylistDatabase.PublishRows(old(db.playlists), id) && r == Ok("Playlist published successfully")
  {
    var check := PublishCheck(db.playlists, token, id);
    if check.Fail? {
      return Err(check.error);
    }
    var written := PlaylistDatabase.PublishPlaylist(db, id, driver);
    if written.Fail? {
      return Err(written.error);
    }
    r := Ok("Playlist published successfully");
  }

  /** Publishing a second time is refused. */
  lemma {:induction false} PublishTwiceFails(playlists: seq<PlaylistRow>, token: Token, id: string)
    requires PublishCheck(playlists, token, id) == Pass
    ensures PublishCheck(PlaylistDatabase.PublishRows(playlists, id), token, id) == Fail(InvalidParameter(ALREADY_PUBLISHED))
  {
    PlaylistDatabase.PublishKeepsOwner(playlists, id, id, Premium(token).value.id);
  }

  /** The guards of `followPlaylist`: a premium caller, an id, and a playlist that is not private. */
  function FollowCheck(playlists: seq<PlaylistRow>, token: Token, id: string): (r: Outcome)
    ensures var auth := Premium(token);
      (auth.Err? ==> r == Fail(auth.error)) &&
      (auth.Ok? && id == "" ==> r == Fail(InvalidParameter(MISSING_PARAMETERS))) &&
      (auth.Ok? && id != "" && PlaylistDatabase.CheckPlaylistPrivate(playlists, id) ==> r == Fail(InvalidParameter(NOT_PUBLISHED))) &&
      (r == Pass <==> auth.Ok? && id != "" && !PlaylistDatabase.CheckPlaylistPrivate(playlists, id))
  {
    match Premium(token)
    case Err(e) => Fail(e)
    case Ok(_) =>
      if id == "" then Fail(InvalidParameter(MISSING_PARAMETERS))
      else if PlaylistDatabase.CheckPlaylistPrivate(playlists, id) then Fail(InvalidParameter(NOT_PUBLISHED))
      else Pass
  }

  /** `followPlaylist` */
  method FollowPlaylist(db: Store, token: Token, id: string, driver: Option<string>) returns (r: Result<string>)
    modifies db`followers
    ensures var check := FollowCheck(db.playlists, token, id);
      if check.Fail? then r == Err(check.error) && db.followers == old(db.followers)
      else if driver.Some? then r == Err(InternalServer(driver.value)) && db.followers == old(db.followers)
      else db.followers == old(db.followers) + [FollowRow(id, Premium(token).value.id)] && r == Ok("Playlist followed successfully")
  {
    var check := FollowCheck(db.playlists, token, id);
    if check.Fail? {
      return Err(check.error);
    }
    var userId := Premium(token).value.id;
    var written := PlaylistUserDatabase.FollowPlaylist(db, FollowRow(id, userId), driver);
    if written.Fail? {
      return Err(written.error);
    }
    r := Ok("Playlist followed successfully");
  }

  /** A freshly created playlist cannot be followed: it is private. */
  lemma {:induction false} NewPlaylistNotFollowable(playlists: seq<PlaylistRow>, token: Token, id: string, name: string, owner: string)
    requires Premium(token).Ok? && id != ""
    ensures FollowCheck(playlists + [PlaylistRow(id, name, 1, owner)], token, id) == Fail(InvalidParameter(NOT_PUBLISHED))
  {
    var extended := playlists + [PlaylistRow(id, name, 1, owner)];
    assert extended[|playlists|].id == id && extended[|playlists|].isPrivate != 0;
  }

  /** Once published, a playlist can be followed by any premium user. */
  lemma PublishedIsFollowable(playlists: seq<PlaylistRow>, publisher: Token, follower: Token, id: string)
    requires PublishCheck(playlists, publisher, id) == Pass
    requires Premium(follower).Ok?
    ensures FollowCheck(PlaylistDatabase.PublishRows(playlists, id), follower, id) == Pass
  {
  }

  /**
    An id no playlist row has is not private, so the follow guard lets it
    through and `followPlaylist` records a follow of a playlist that does not
    exist.
   */
  lemma UnknownPlaylistFollowable(playlists: seq<PlaylistRow>, follower: Token, id: string)
    requires Premium(follower).Ok? && id != ""
    requires forall i :: 0 <= i < |playlists| ==> playlists[i].id != id
    ensures FollowCheck(playlists, follower, id) == Pass
  {
  }

  /** `getPlaylistById`: the playlist (absent when unknown) and a page of ten of its songs. */
  function GetPlaylistById(playlists: seq<PlaylistRow>, links: seq<PlaylistSongRow>, token: Token, input: GetPlaylistInput): (r: Result<Playlist>)
    ensures Premium(token).Err? ==> r == Err(Premium(token).error)
    ensures Premium(token).Ok? && input.id == "" ==> r == Err(InvalidParameter(MISSING_PARAMETERS))
    ensures Premium(token).Ok? && input.id != "" ==> (r.Err? <==> input.page < 1)
    ensures r.Ok? ==> r.value.info == PlaylistDatabase.GetPlaylistById(playlists, input.id)
    ensures r.Ok? ==> |r.value.songs| <= PLAYLIST_PAGE_LIMIT
    ensures r.Ok? ==> forall i :: 0 <= i < |r.value.songs| ==> PlaylistSongRow(input.id, r.value.songs[i]) in links
    ensures r.Ok? ==> r.value.songs == PlaylistSongDatabase.GetSongsByPlaylistId(links, input.id, PLAYLIST_PAGE_LIMIT, input.page).value
  {
    var _ :- Premium(token);
    if input.id == "" then Err(InvalidParameter(MISSING_PARAMETERS))
    else
      var playlistResponse := PlaylistDatabase.GetPlaylistById(playlists, input.id);
      var songs :- PlaylistSongDatabase.GetSongsByPlaylistId(links, input.id, PLAYLIST_PAGE_LIMIT, input.page);
      Ok(Playlist(playlistResponse, songs))
  }

  /** The guards of `editPlaylist`: any decodable token, an id, and a followed playlist. */
  function EditCheck(followers: seq<FollowRow>, token: Token, input: EditPlaylistInput): (r: Outcome)
    ensures GetData(token).Err? ==> r == Fail(GetData(token).error)
    ensures GetData(token).Ok? && input.id == "" ==> r == Fail(InvalidParameter(MISSING_PARAMETERS))
    ensures GetData(token).Ok? && input.id != "" && FollowRow(input.id, GetData(token).value.id) !in followers ==>
              r == Fail(InvalidParameter(NOT_FOLLOWED))
    ensures r == Pass <==> GetData(token).Ok? && input.id != "" && FollowRow(input.id, GetData(token).value.id) in followers
  {
    match GetData(token)
    case Err(e) => Fail(e)
    case Ok(auth) =>
      if input.id == "" then Fail(InvalidParameter(MISSING_PARAMETERS))
      else if !PlaylistUserDatabase.CheckPlaylistFollowed(followers, input.id, auth.id) then Fail(InvalidParameter(NOT_FOLLOWED))
      else Pass
  }

  /** `editPlaylist` */
  method EditPlaylist(db: Store, token: Token, input: EditPlaylistInput, driver: Option<string>) returns (r: Result<string>)
    modifies db`playlists
    ensures var check := EditCheck(db.followers, token, input);
      if check.Fail? then r == Err(check.error) && db.playlists == old(db.playlists)
      else if driver.Some? then r == Err(InternalServer(driver.value)) && db.playlists == old(db.playlists)
      else db.playlists == PlaylistDatabase.RenameRows(old(db.playlists), input.id, input.name) && r == Ok("Playlist edited successfully")
  {
    var check := EditCheck(db.followers, token, input);
    if check.Fail? {
      return Err(check.error);
    }
    var written := PlaylistDatabase.EditPlaylist(db, input.id, input.name, driver);
    if written.Fail? {
      return Err(written.error);
    }
    r := Ok("Playlist edited successfully");
  }

  /** The follow written by `createPlaylist` lets its creator add songs to the playlist and edit it. */
  lemma CreatorMayAddAndEdit(followers: seq<FollowRow>, token: Token, id: string, songId: string, name: string)
    requires Premium(token).Ok? && id != "" && songId != ""
    ensures AddSongCheck(followers + [FollowRow(id, Premium(token).value.id)], token, PlaylistSongInput(id, songId)) == Pass
    ensures EditCheck(followers + [FollowRow(id, Premium(token).value.id)], token, EditPlaylistInput(id, name)) == Pass
  {
    PlaylistUserDatabase.FollowThenCheck(followers, id, Premium(token).value.id);
  }
}
