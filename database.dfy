/**
  The relational store every gateway talks to (src/data/BaseDatabase), held in
  memory: one sequence of rows per table, in insertion order. Connection
  set-up and tear-down are not part of this model.
 */
module Database {
  import opened Records

  class Store {
    var users: seq<UserRow>
    var songs: seq<SongRow>
    var albums: seq<AlbumRow>
    var albumGenres: seq<AlbumGenreRow>
    var genres: seq<GenreRow>
    var playlists: seq<PlaylistRow>
    var followers: seq<FollowRow>
    var playlistSongs: seq<PlaylistSongRow>
    var refreshTokens: seq<RefreshTokenRow>

    constructor ()
      ensures users == [] && songs == [] && albums == [] && albumGenres == [] && genres == []
      ensures playlists == [] && followers == [] && playlistSongs == [] && refreshTokens == []
    {
      users, songs, albums, albumGenres, genres := [], [], [], [], [];
      playlists, followers, playlistSongs, refreshTokens := [], [], [], [];
    }
  }
}
