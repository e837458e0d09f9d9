/**
  The rows of the relational schema, as the gateways write and read them, and
  the plain record classes of src/model/Song, Album, Playlist and RefreshToken
  (getters and setters only, so values here).
 */
module Records {
  import opened Errors
  import opened BandModel

  /** A row of `spotenuUser`; `role` holds the enum's string, `is_approved` 0/1 or null. */
  datatype UserRow = UserRow(
    id: string, name: string, nickname: string, email: string, password: string,
    role: string, image: Option<string>, description: Option<string>, isApproved: Option<int>)

  /** A row of `spotenuSong`. */
  datatype SongRow = SongRow(id: string, name: string, albumId: string)

  /** A row of `spotenuAlbum`. */
  datatype AlbumRow = AlbumRow(id: string, name: string, image: string, bandId: string)

  /** A row of `spotenuAlbumGenre`. */
  datatype AlbumGenreRow = AlbumGenreRow(albumId: string, genreId: string)

  /** A row of `spotenuMusicGenre`. */
  datatype GenreRow = GenreRow(id: string, name: string)

  /** A row of `spotenuPlaylist`; `is_private` is 0/1. */
  datatype PlaylistRow = PlaylistRow(id: string, name: string, isPrivate: int, userId: string)

  /** A row of `spotenuPlaylistUser`: the user follows the playlist. */
  datatype FollowRow = FollowRow(playlistId: string, userId: string)

  /** A row of `spotenuPlaylistSong`. */
  datatype PlaylistSongRow = PlaylistSongRow(playlistId: string, songId: string)

  /** A row of `spotenuRefreshToken`; `is_active` is 0/1. */
  datatype RefreshTokenRow = RefreshTokenRow(token: string, device: string, isActive: int, userId: string)

  /** `b ? 1 : 0`, how a boolean is written to a column. */
  function BoolToFlag(b: bool): int {
    if b then 1 else 0
  }

  /** `x ? true : false`, how a column is read back as a boolean (null is false). */
  function FlagToBool(f: Option<int>): bool {
    f.Some? && f.value != 0
  }

  lemma FlagRoundTrip(b: bool)
    ensures FlagToBool(Some(BoolToFlag(b))) == b
  {
  }

  /** src/model/Song: a song joined with its album and the album's band. */
  datatype Song = Song(
    id: string, name: string, albumId: string, albumName: string, albumImage: string,
    creatorBandId: string, creatorBandName: string)

  /** `SongAlbumDTO`: `{ id, name }`. */
  datatype SongSummary = SongSummary(id: string, name: string)

  /** src/model/Album. */
  datatype Album = Album(id: string, name: string, image: string, creatorBandId: string, musicGenres: seq<MusicGenre>)

  /** `PlaylistResponseDTO`. */
  datatype PlaylistResponse = PlaylistResponse(
    id: string, name: string, isPrivate: bool, userId: string, isFollowed: Option<bool>)

  /** `GetPlaylistResponseDTO`: a page of playlists and, for paged queries, a count. */
  datatype PlaylistPage = PlaylistPage(playlists: seq<PlaylistResponse>, quantity: Option<nat>)

  /** src/model/Playlist, as `getPlaylistById` fills it: the playlist (if any) and a page of its songs. */
  datatype Playlist = Playlist(info: Option<PlaylistResponse>, songs: seq<string>)

  /** src/model/RefreshToken. */
  datatype RefreshToken = RefreshToken(token: string, device: string, isActive: bool, userId: string)
}
