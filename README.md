# Spotenu backend: business rules and data gateways in Dafny

Spotenu is a music-streaming backend with four kinds of account: listeners
(FREE or PREMIUM), BANDs and ADMINs.

- Admins create other admins, approve bands, upgrade listeners to premium and
  maintain the genre catalog.
- Bands sign up, are refused login until an admin approves them, create albums
  tagged with catalog genres, and add songs to their albums; a song name is
  unique within its album.
- Listeners search songs by name, page by page, and read a song together with
  its album and band.
- Premium listeners keep playlists. A playlist is created private and is
  followed by its creator. Its followers add and remove songs. Its creator
  publishes it once. Only a published playlist can be followed.
- Refresh tokens are stored per user and device.

The model keeps the repository's layering:

- one Dafny module per business class (`UserBusiness`, `SongBusiness`,
  `AlbumBusiness`, `MusicGenreBusiness`, `PlaylistBusiness`);
- one module per data gateway (`UserDatabase`, `SongDatabase`,
  `AlbumDatabase`, `AlbumGenreDatabase`, `MusicGenreDatabase`,
  `PlaylistDatabase`, `PlaylistUserDatabase`, `PlaylistSongDatabase`,
  `RefreshTokenDatabase`);
- `UserModel` and `BandModel` for the mutable User and Band records;
- `Records` for the rows of each table and the plain record types.

The relational store is a class, `Database.Store`, with one sequence of rows per
table in insertion order. Gateway and business operations that write are
methods, and each frames exactly the table fields it changes. Read-only queries
are functions over those sequences. Every business operation that writes runs
its guard checks first. The model states those guards once, as a pure `…Check`
function returning `Pass` or `Fail(error)`. The method's postcondition then
says:

- on a failed guard, the error is returned and the store is unchanged;
- on a driver failure of the first write, the error is returned and the store
  is unchanged. Two operations write more than once and are not atomic: in
  `PlaylistBusiness.CreatePlaylist` a failing follow insert keeps the new
  playlist row, and in `AlbumBusiness.CreateAlbum` a failing link insert keeps
  the album row and the links inserted before it;
- otherwise, exactly the new rows are written.

Lemmas relate operations to one another:

- sign-up then login;
- band approval then login;
- approving, upgrading, publishing, creating a genre or creating a song twice;
- add then remove;
- create then follow;
- create then read back.

Environment inputs become parameters:

- an id the generator produced is an `id` argument;
- a failing SQL statement is a `driver: Option<string>` argument (`Some(message)`
  means that statement fails with that message);
- for the per-genre insert loop, the failing statement is
  `failure: Option<(index, message)>`.

The token and password services are abstract:

- `GetData(GenerateToken(p)) == Ok(p)`, and a token the service did not sign is
  rejected;
- `Compare(p, Hash(p))` holds and `Hash(p) != p`; no contract relies on more
  than these two facts of the password service.

Some of the repository's files are snapshots that do not agree with each other.
These are the choices the model makes:

- **Playlist owner field.** `PlaylistDatabase` and `PlaylistUserDatabase` read
  `creatorUserId` (src/data/PlaylistDatabase/index.ts:17,
  src/data/PlaylistUserDatabase/index.ts:15, 27). The business class and the
  DTOs pass `userId` (src/business/PlaylistBusiness/index.ts:49, 53;
  src/model/Playlist/index.ts:69, 74). The model follows `userId`, so the owner
  and follower columns hold the caller's id.
- **User image.** `UserDatabase.createUser`/`createBand` read `input.getImage()`
  (src/data/UserDatabase/index.ts:21, 38), which neither User nor Band declares.
  The model stores a null image column.
- **Called gateway methods.** Some methods are called but are not in the
  gateway files:
  - `checkAlbumById` on AlbumDatabase;
  - `checkPlaylistCreatedByUser`, `checkPlaylistPrivate`, `publishPlaylist`,
    `editPlaylist`, `getAllPublicPlaylists`, `countPublicPlaylist`,
    `getPlaylistById`, `getAllPlaylistsByUserId` and `countPlaylistsByUserId`
    on PlaylistDatabase;
  - `getAllPlaylistsByUserId` on PlaylistUserDatabase;
  - `getSongsByPlaylistId` on PlaylistSongDatabase;
  - `updateFreeToPremium` and `editProfile` on UserDatabase.

  Each is given the meaning its caller relies on, stated over the same tables:
  - an album exists if a row has that id;
  - a playlist is private if its row has `is_private != 0`. An id that no row
    has is therefore not private: the follow guard lets it through, and
    `followPlaylist` writes a follow row for a playlist that does not exist
    (`PlaylistBusiness.UnknownPlaylistFollowable`);
  - publishing clears that flag on the rows with that id;
  - editing renames those rows;
  - the public listing is the public rows, paged and counted;
  - a user's playlists are the playlists that user follows;
  - a playlist's songs are its link rows, paged;
  - upgrading sets the role to PREMIUM on the rows with that id;
  - editing a profile sets the name on those rows.

  The paged `PlaylistDatabase.getAllPlaylistsByUserId` and
  `countPlaylistsByUserId` are placed in module `PlaylistUserDatabase`, because
  they read the follower table.

## Model

| member | source | states |
|---|---|---|
| Errors.StatusCode | src/error/InvalidParameterError/index.ts:5 | InvalidParameter carries 422, InternalServer 500 and Generic 400. Exactly these three variants carry a code; the Unauthorized, NotFound and untyped library errors carry none. |
| Authenticator.GetData | src/service/Authenticator/index.ts:15-18 | Decoding succeeds exactly for a token the service signed. Any other token fails with an error that has no status code. |
| Authenticator.GetDataOfGenerated | src/service/Authenticator/index.ts:10-18 | A generated token decodes to the very payload it was generated from. |
| HashManager.Hash | src/service/HashManager/index.ts:4-10 | The stored hash of a password is never the password itself. |
| HashManager.CompareOwnHash | src/service/HashManager/index.ts:12-16 | `compare(p, hash(p))` holds for every password. |
| Authorization.Authorize | src/business/UserBusiness/index.ts:48-52 | The role guard succeeds iff the token decodes and its role parses into the allow-list, and then returns the payload. A bad token keeps the decoder's error; a role outside the list gives Unauthorized with the operation's message. |
| Authorization.IssuedTokenAuthorizes | src/business/UserBusiness/index.ts:42-52 | A token issued for role r passes a guard iff r is in that guard's allow-list. |
| UserModel.ToLower | src/model/User/index.ts:52 | Lower-casing keeps the length and lower-cases each character in place. |
| UserModel.StringToUserRole | src/model/User/index.ts:51-64 | After lower-casing: "band" gives BAND, "premium" gives PREMIUM, "admin" gives ADMIN. Every other string, including "free", gives FREE, so the parser is total. Each is stated as an iff. |
| UserModel.CaseInsensitive | src/model/User/index.ts:52 | Parsing a string and parsing its lower-cased form give the same role. |
| UserModel.RoleRoundTrip | src/model/User/index.ts:94-99 | For every role, parsing the role's enum string gives back that role. |
| UserModel.LowerNamesParse | src/model/User/index.ts:53-60 | The four lower-case names the business layer passes parse to BAND, FREE, PREMIUM and ADMIN. |
| UserModel.User.constructor | src/model/User/index.ts:2-9 | The six fields equal the constructor arguments. |
| UserModel.User.ToUserModel | src/model/User/index.ts:47-49 | A fresh User holding id, name, nickname, email, password and role unchanged. |
| UserModel.User.SetId | src/model/User/index.ts:23-25 | Sets id and may change no other field. |
| UserModel.User.SetName | src/model/User/index.ts:27-29 | Sets name and may change no other field. |
| UserModel.User.SetNickname | src/model/User/index.ts:31-33 | Sets nickname and may change no other field. |
| UserModel.User.SetEmail | src/model/User/index.ts:35-37 | Sets email and may change no other field. |
| UserModel.User.SetPassword | src/model/User/index.ts:39-41 | Sets password and may change no other field. |
| UserModel.User.SetRole | src/model/User/index.ts:43-45 | Sets role and may change no other field. |
| BandModel.Band.constructor | src/model/Band/index.ts:4-15 | The inherited User fields equal the arguments, and so do description and isApproved. isApproved is false when the argument is not supplied. |
| BandModel.Band.ToBandModel | src/model/Band/index.ts:29-31 | A fresh Band holding all eight fields. An absent isApproved becomes false. |
| BandModel.Band.SetDescription | src/model/Band/index.ts:21-23 | Sets description and may change no other field. |
| BandModel.Band.SetIsApproved | src/model/Band/index.ts:25-27 | Sets isApproved and may change no other field. |
| Records.FlagRoundTrip | src/data/UserDatabase/index.ts:40-61 | A boolean written as 1/0 reads back, through `x ? true : false`, as the same boolean. |
| Tables.Window | src/data/SongDatabase/index.ts:62-69 | Limit/offset paging with offset `limit * (page - 1)`. It fails with InternalServer iff the offset is negative; with a positive limit that is iff page < 1. Otherwise it returns `min(limit, max(0, n - offset))` elements, element i being source element offset + i. |
| UserDatabase.CreateUser | src/data/UserDatabase/index.ts:14-29 | On success, exactly one row is appended: the six User fields, the role as its enum string and a null image. A driver failure becomes InternalServer and leaves the table unchanged. |
| UserDatabase.CreateBand | src/data/UserDatabase/index.ts:31-48 | On success, exactly one row is appended with the band's fields, its description, and isApproved written as 1/0. A driver failure becomes InternalServer and leaves the table unchanged. |
| UserDatabase.GetUserByQuery | src/data/UserDatabase/index.ts:50-67 | Undefined iff no row's nickname or email equals the query. Otherwise the first such row, read as a Band (flag as boolean) when its role parses to BAND and as a User with the parsed role when not. |
| UserDatabase.GetUserById | src/data/UserDatabase/index.ts:69-86 | Undefined iff no row has that id. Otherwise the first such row as a profile, which has no password field. |
| UserDatabase.GetAllBands | src/data/UserDatabase/index.ts:88-101 | Exactly one summary per BAND row, in table order: element i is the summary of BAND row number i, and the lengths are equal. Every BAND row's summary is listed. isApproved is read as a boolean. |
| UserDatabase.ApproveRows | src/data/UserDatabase/index.ts:103-109 | Rows with the given id get is_approved = 1; every other row is unchanged; order and ids are kept. |
| UserDatabase.ApproveBand | src/data/UserDatabase/index.ts:103-113 | The table becomes ApproveRows of the old table. A driver failure becomes InternalServer and leaves the table unchanged. |
| UserDatabase.UpgradeRows | src/business/UserBusiness/index.ts:182 | Rows with the given id get role PREMIUM; every other row is unchanged. |
| UserDatabase.UpdateFreeToPremium | src/business/UserBusiness/index.ts:182 | The table becomes UpgradeRows of the old table. A driver failure becomes InternalServer and leaves the table unchanged. |
| UserDatabase.RenameRows | src/business/UserBusiness/index.ts:203-205 | Rows with the given id get the new name; every other row is unchanged. |
| UserDatabase.EditProfile | src/business/UserBusiness/index.ts:203-205 | The table becomes RenameRows of the old table. A driver failure becomes InternalServer and leaves the table unchanged. |
| UserDatabase.UserRowReadsBack | src/data/UserDatabase/index.ts:60-63 | A row written by createUser reads back as a User with the same fields and role. A BAND role reads back as an unapproved Band. |
| UserDatabase.BandRowReadsBack | src/data/UserDatabase/index.ts:40-79 | A row written by createBand reads back, by query and by id, with the same description and the same approval flag. |
| UserDatabase.QueryFindsAppended | src/data/UserDatabase/index.ts:50-59 | A row appended when no earlier row matches the query is the account the query returns. |
| UserDatabase.ApprovedProfile | src/data/UserDatabase/index.ts:103-109 | After approveBand(id), the profile with that id is still a BAND and has isApproved = true. |
| UserDatabase.UpgradedProfile | src/business/UserBusiness/index.ts:178-182 | After updateFreeToPremium(id), the profile with that id has role PREMIUM. |
| UserBusiness.ValidateAccount | src/business/UserBusiness/index.ts:25-33 | Passes iff every required field is present, the email has an '@' and the password reaches the minimum length. The first failing test picks the message: missing parameters, then invalid email, then invalid password. |
| UserBusiness.SignUp | src/business/UserBusiness/index.ts:22-45 | Validation uses minimum 6. A rejection or driver error writes nothing. Success appends exactly one FREE row and returns a token for that id and role. The stored password is the hash, not the plaintext, and it matches the plaintext. |
| UserBusiness.CreateAdmin | src/business/UserBusiness/index.ts:47-74 | A non-ADMIN caller is refused before validation. Validation then uses minimum 10. Success appends exactly one ADMIN row with the hashed password. Any failure leaves the table unchanged. |
| UserBusiness.CreateBand | src/business/UserBusiness/index.ts:76-98 | Validation also requires a description and uses minimum 6. Success appends exactly one BAND row with isApproved = 0 and the hashed password. Any failure leaves the table unchanged. |
| UserBusiness.Login | src/business/UserBusiness/index.ts:100-129 | Failures, in order: missing username or password; NotFound for no match; Unauthorized for an unapproved band, whatever the password; InvalidParameter for a wrong password. Login succeeds iff both fields are given and a match exists that is not an unapproved band and whose stored hash matches. The token is then the one generated for the stored id and role. |
| UserBusiness.GetAllBands | src/business/UserBusiness/index.ts:131-141 | Succeeds iff the caller is ADMIN, and then returns the gateway's band list. Otherwise it returns the guard's error. |
| UserBusiness.ApproveBandCheck | src/business/UserBusiness/index.ts:143-159 | Gives Unauthorized for a non-admin caller and NotFound for an unknown id. A BAND that is already approved is refused. It passes iff the caller is admin, the user exists, and the user is not an approved band; a user with another role passes. |
| UserBusiness.ApproveBand | src/business/UserBusiness/index.ts:143-164 | A failed check or driver error leaves the table unchanged. Otherwise the table becomes ApproveRows(bandId). |
| UserBusiness.UpgradeCheck | src/business/UserBusiness/index.ts:166-180 | Gives Unauthorized for a non-admin caller, NotFound for an unknown id, and InvalidParameter for a user already PREMIUM. It passes exactly otherwise. |
| UserBusiness.UpdateFreeToPremium | src/business/UserBusiness/index.ts:166-185 | A failed check or driver error leaves the table unchanged. Otherwise the table becomes UpgradeRows(userId). |
| UserBusiness.GetProfile | src/business/UserBusiness/index.ts:187-196 | Any decodable token is accepted. The result is the caller's own profile, or NotFound. |
| UserBusiness.EditProfile | src/business/UserBusiness/index.ts:198-208 | Any decodable token is accepted, with no validation. On success only the caller's rows are renamed. |
| UserBusiness.LoginAfterSignUp | src/business/UserBusiness/index.ts:100-129 | After a valid sign-up whose nickname no earlier row uses, logging in with that nickname and password gives the same FREE token the sign-up returned. |
| UserBusiness.SignUpTokenIsFree | src/business/UserBusiness/index.ts:37-42 | The sign-up token passes exactly the guards that admit FREE. |
| UserBusiness.BandLoginNeedsApproval | src/business/UserBusiness/index.ts:112-117 | A fresh band is refused login even with its own password. Once approved, the same login succeeds with a BAND token. |
| UserBusiness.ApproveTwiceFails | src/business/UserBusiness/index.ts:155-161 | Once a band has been approved, approving it again is refused with "already been approved". |
| UserBusiness.UpgradeTwiceFails | src/business/UserBusiness/index.ts:178-182 | Once a user has been upgraded, upgrading again is refused with "already been premium". |
| SongDatabase.CreateSong | src/data/SongDatabase/index.ts:15-26 | Exactly one row is appended, or, on a driver failure, an InternalServer error with the table unchanged. |
| SongDatabase.CheckSongByNameAndAlbum | src/data/SongDatabase/index.ts:28-44 | True iff some row has both that name and that album id. |
| SongDatabase.CheckAfterCreate | src/data/SongDatabase/index.ts:15-40 | After an insert, the check for a pair is true iff it was true before or the inserted song has that pair. In particular it is true for the inserted song's own pair. |
| SongDatabase.GetSongsByAlbumId | src/data/SongDatabase/index.ts:46-57 | One `{id, name}` summary per row of that album, in table order: element i is the summary of matching row number i, and the lengths are equal. A summary is listed iff some row of that album has it. |
| SongDatabase.NamedSongs | src/data/SongDatabase/index.ts:67 | Every selected song's name equals the query exactly. Every song so named is selected: element i is the summary of matching row number i, in table order, one entry per row. |
| SongDatabase.GetSongsByQuery | src/data/SongDatabase/index.ts:59-74 | Fails with InternalServer iff `limit * (page - 1) < 0`. Otherwise it returns `min(limit, max(0, matches - offset))` songs, each named exactly the query. Element i is match number offset + i, in table order. |
| SongDatabase.JoinedSongs | src/data/SongDatabase/index.ts:81-94 | A song record is in the join iff some song, album and user row form the triple `song.album_id = album.id`, `album.band_id = user.id`, with the requested song id. |
| SongDatabase.GetSongById | src/data/SongDatabase/index.ts:76-99 | Succeeds iff a joined triple exists, returning that triple's columns with the requested id. An empty join reads a field of an absent row, and the catch reports it as InternalServer. |
| SongDatabase.FindSongById | src/data/SongDatabase/index.ts:95 | The corrected lookup. It is absent exactly where the lookup as written throws, and otherwise gives the same song. |
| SongDatabase.EditRows | src/data/SongDatabase/index.ts:113-116 | Only rows with the given id change, and there only the fields given. Length and ids are kept. |
| SongDatabase.EditIdempotent | src/data/SongDatabase/index.ts:101-120 | Applying the same edit twice gives the same table as applying it once. |
| SongDatabase.EditSong | src/data/SongDatabase/index.ts:101-120 | A non-empty name or album id replaces that column, and only on rows with that id; every other row and column is unchanged. An input with neither field is an update with no columns and fails with InternalServer. |
| AlbumDatabase.CreateAlbum | src/data/AlbumDatabase/index.ts:13-25 | Exactly one row is appended, or, on a driver failure, an InternalServer error with the table unchanged. |
| SongBusiness.CreateSongCheck | src/business/SongBusiness/index.ts:22-45 | The checks run in order: Unauthorized for non-BAND callers, missing name or album id, NotFound for an unknown album (before the duplicate check), then an existing pair refused. It passes iff the caller is BAND, both fields are present, the album exists and no song has that name in that album. |
| SongBusiness.CreateSong | src/business/SongBusiness/index.ts:22-53 | A failed check or driver error leaves the table unchanged. Success appends exactly one song with the given id, name and album. If (name, album) pairs were unique before, they stay unique. |
| SongBusiness.CreateKeepsUnique | src/business/SongBusiness/index.ts:41-50 | Appending a song whose pair is absent keeps (name, album) unique. |
| SongBusiness.CreateTwiceFails | src/business/SongBusiness/index.ts:41-45 | Once a song has been created, creating the same name in the same album is refused. |
| SongBusiness.GetSongsByQuery | src/business/SongBusiness/index.ts:55-77 | Only FREE and PREMIUM callers are accepted, and an empty query is refused. Otherwise it returns the gateway's page with limit 10: at most 10 songs, each named exactly the query. |
| SongBusiness.GetSongById | src/business/SongBusiness/index.ts:79-95 | As written: only FREE and PREMIUM callers; otherwise the gateway's result. It never fails with NotFound. |
| SongBusiness.UnknownSongIsServerError | src/business/SongBusiness/index.ts:88-92 | For an unknown id, a listener gets InternalServer, not "Song not found". |
| SongBusiness.GetSongByIdCorrected | src/business/SongBusiness/index.ts:88-92 | An unknown id gives NotFound("Song not found"). It fails with NotFound exactly where the original fails, and otherwise agrees with it. |
| AlbumGenreDatabase.GenreLinks | src/data/AlbumGenreDatabase/index.ts:17-22 | One link per listed genre, in list order, each carrying the album id and that genre's id. |
| AlbumGenreDatabase.Inserted | src/data/AlbumGenreDatabase/index.ts:16-25 | The number of inserts that succeed is below the list length iff an insert inside the list fails, and it is then the index of the failing insert. |
| AlbumGenreDatabase.CreateAlbum | src/data/AlbumGenreDatabase/index.ts:13-26 | The table gains exactly the links of the first n genres, in order, n being the count that succeeded. An empty list adds nothing. A failing insert keeps the earlier links and fails with InternalServer. |
| AlbumBusiness.CreateAlbum | src/business/AlbumBusiness/index.ts:23-55 | Refusals write nothing: a non-BAND caller, a missing name or image, an empty genre list, any genre id not in the catalog, or a failing album insert. Otherwise the album row (the generated id, the caller as creator) is appended, then the links of its genres. A link failure leaves the album and the earlier links in place. |
| MusicGenreDatabase.CreateMusicGenre | src/data/MusicGenreDatabase/index.ts:13-22 | Exactly one row is appended, or, on a driver failure, an InternalServer error with the table unchanged. |
| MusicGenreDatabase.GetMusicGenreByName | src/data/MusicGenreDatabase/index.ts:24-37 | Undefined iff no genre has that name; otherwise a genre with that name. |
| MusicGenreDatabase.GetMusicGenreById | src/data/MusicGenreDatabase/index.ts:39-52 | Undefined iff no genre has that id; otherwise a genre with that id. |
| MusicGenreDatabase.GetAllMusicGenres | src/data/MusicGenreDatabase/index.ts:54-63 | The whole catalog, one element per row, in order. |
| MusicGenreBusiness.CreateMusicGenreCheck | src/business/MusicGenreBusiness/index.ts:19-34 | Unauthorized for a non-ADMIN caller, before any lookup. Then an empty name is refused, then an existing name. It passes iff the caller is admin, the name is non-empty, and no genre has that name. |
| MusicGenreBusiness.CreateMusicGenre | src/business/MusicGenreBusiness/index.ts:19-42 | A refusal or driver error leaves the catalog unchanged. Success adds exactly one genre with the given id and name. Unique names stay unique. |
| MusicGenreBusiness.AppendKeepsUnique | src/business/MusicGenreBusiness/index.ts:36-39 | Appending a genre whose name is absent keeps names unique. |
| MusicGenreBusiness.CreateGenreTwiceFails | src/business/MusicGenreBusiness/index.ts:30-39 | Once a genre has been created, creating the same name again is refused. |
| MusicGenreBusiness.GetAllMusicGenres | src/business/MusicGenreBusiness/index.ts:44-50 | Any decodable token is accepted, and the result is the whole catalog. The catalog is not written. |
| PlaylistSongDatabase.AddSongToPlaylist | src/data/PlaylistSongDatabase/index.ts:13-23 | Exactly one link is appended, or, on a driver failure, an InternalServer error with the table unchanged. |
| PlaylistSongDatabase.CheckSongInPlaylist | src/data/PlaylistSongDatabase/index.ts:25-40 | True iff the (playlist, song) pair is in the table. |
| PlaylistSongDatabase.RemoveLinks | src/data/PlaylistSongDatabase/index.ts:42-49 | Every copy of the pair is gone. Every other pair keeps its exact number of copies: a multiset equality. |
| PlaylistSongDatabase.RemoveSongFromPlaylist | src/data/PlaylistSongDatabase/index.ts:42-53 | The table becomes RemoveLinks of the old table. A driver failure becomes InternalServer and leaves the table unchanged. |
| PlaylistSongDatabase.AddThenCheck | src/data/PlaylistSongDatabase/index.ts:13-40 | After adding a pair, the check finds it. |
| PlaylistSongDatabase.RemoveThenCheck | src/data/PlaylistSongDatabase/index.ts:25-49 | After removing a pair, the check does not find it, and every other pair gives the same answer as before. |
| PlaylistSongDatabase.GetSongsByPlaylistId | src/business/PlaylistBusiness/index.ts:256-260 | Fails iff the offset is negative. Otherwise it returns at most `limit` song ids, each linked to that playlist. |
| PlaylistDatabase.CreatePlaylist | src/data/PlaylistDatabase/index.ts:13-25 | Exactly one row is appended, or, on a driver failure, an InternalServer error with the table unchanged. |
| PlaylistDatabase.PublishRows | src/business/PlaylistBusiness/index.ts:204-210 | Publishing clears the private flag on the rows with that id and changes nothing else. Afterwards the playlist is not private. |
| PlaylistDatabase.PublishKeepsOwner | src/business/PlaylistBusiness/index.ts:198-210 | Publishing changes no playlist's owner check. |
| PlaylistDatabase.PublishPlaylist | src/business/PlaylistBusiness/index.ts:210 | The table becomes PublishRows of the old table. A driver failure leaves it unchanged. |
| PlaylistDatabase.RenameRows | src/business/PlaylistBusiness/index.ts:287 | Rows with the given id take the new name; every other row is unchanged. |
| PlaylistDatabase.EditPlaylist | src/business/PlaylistBusiness/index.ts:287 | The table becomes RenameRows of the old table. A driver failure leaves it unchanged. |
| PlaylistDatabase.PublicPlaylists | src/business/PlaylistBusiness/index.ts:163 | A response is listed iff some public row yields it, and none of them is private. |
| PlaylistDatabase.GetAllPublicPlaylists | src/business/PlaylistBusiness/index.ts:159-163 | Fails iff the offset is negative. Otherwise the page has `min(limit, max(0, public - offset))` entries, and element i is public playlist number offset + i, in table order. |
| PlaylistDatabase.CountPublicPlaylist | src/business/PlaylistBusiness/index.ts:176 | The count equals the number of public playlists in the listing. |
| PlaylistDatabase.GetPlaylistById | src/business/PlaylistBusiness/index.ts:254 | Undefined iff no playlist has that id; otherwise one with that id. |
| PlaylistUserDatabase.FollowPlaylist | src/data/PlaylistUserDatabase/index.ts:13-23 | Exactly one follow row is appended, or, on a driver failure, an InternalServer error with the table unchanged. |
| PlaylistUserDatabase.CheckPlaylistFollowed | src/data/PlaylistUserDatabase/index.ts:25-40 | True iff the (playlist, user) follow row is in the table. |
| PlaylistUserDatabase.FollowThenCheck | src/data/PlaylistUserDatabase/index.ts:13-40 | After a follow, the check for that pair is true. |
| PlaylistUserDatabase.GetAllPlaylistsByUserId | src/business/PlaylistBusiness/index.ts:130 | A response is listed iff the user follows some playlist row that yields it. |
| PlaylistUserDatabase.GetPlaylistsPageByUserId | src/business/PlaylistBusiness/index.ts:135-139 | Fails iff the offset is negative. Otherwise the page has `min(limit, max(0, followed - offset))` entries, and element i is followed playlist number offset + i, in table order. |
| PlaylistUserDatabase.CountPlaylistsByUserId | src/business/PlaylistBusiness/index.ts:141 | The count equals the number of the user's followed playlists. |
| PlaylistBusiness.CreatePlaylist | src/business/PlaylistBusiness/index.ts:33-58 | A non-PREMIUM caller, a missing name or a failing playlist insert writes nothing. Otherwise one private playlist owned by the caller is appended, then the caller's follow. A failing follow insert keeps the playlist. On success, "every playlist is followed by its creator" is preserved. |
| PlaylistBusiness.AddSongCheck | src/business/PlaylistBusiness/index.ts:60-80 | Unauthorized for a non-PREMIUM caller; then missing ids are refused; then "not followed". It passes iff the caller is premium, both ids are given, and the caller follows the playlist. |
| PlaylistBusiness.AddSongToPlaylist | src/business/PlaylistBusiness/index.ts:60-85 | A failed check or driver error leaves the links unchanged. Otherwise exactly the pair is appended. |
| PlaylistBusiness.RemoveSongCheck | src/business/PlaylistBusiness/index.ts:87-113 | It gives the same errors as adding. Then a song not in the playlist is refused. It passes iff adding would pass and the pair is present. |
| PlaylistBusiness.RemoveSongFromPlaylist | src/business/PlaylistBusiness/index.ts:87-118 | A failed check or driver error leaves the links unchanged. Otherwise the links become RemoveLinks of the pair. |
| PlaylistBusiness.AddThenRemove | src/business/PlaylistBusiness/index.ts:82-115 | A song the caller just added passes the remove check. After removing it, removing again is refused as "not in this playlist". |
| PlaylistBusiness.GetAllPlaylistsByUserId | src/business/PlaylistBusiness/index.ts:120-146 | PREMIUM callers only. Without a page it returns every followed playlist and no quantity. With a page it fails iff page < 1; otherwise the list is exactly the gateway's limit-10 window of the followed playlists, with the count. Every listed playlist is followed by the caller. |
| PlaylistBusiness.GetAllPublicPlaylists | src/business/PlaylistBusiness/index.ts:148-181 | PREMIUM callers only, and a missing page is refused. The result has the gateway page's length and order. Element k is page element k with isFollowed set to whether the caller follows it. The quantity is the public count. |
| PlaylistBusiness.PublishCheck | src/business/PlaylistBusiness/index.ts:183-208 | Unauthorized for a non-PREMIUM caller; then a missing id; then "not created by user"; then "already been published". It passes iff the caller owns the playlist and it is private. |
| PlaylistBusiness.PublishPlaylist | src/business/PlaylistBusiness/index.ts:183-213 | A failed check or driver error leaves the table unchanged. Otherwise the table becomes PublishRows(id). |
| PlaylistBusiness.PublishTwiceFails | src/business/PlaylistBusiness/index.ts:204-210 | Once a playlist has been published, publishing it again is refused with "already been published". |
| PlaylistBusiness.FollowCheck | src/business/PlaylistBusiness/index.ts:215-232 | Unauthorized for a non-PREMIUM caller; then a missing id; then a private playlist is refused. It passes iff the playlist is not private. |
| PlaylistBusiness.FollowPlaylist | src/business/PlaylistBusiness/index.ts:215-239 | A failed check or driver error leaves the followers unchanged. Otherwise exactly the caller's follow is appended. |
| PlaylistBusiness.NewPlaylistNotFollowable | src/business/PlaylistBusiness/index.ts:228-232 | A just-created playlist, being private, cannot be followed. |
| PlaylistBusiness.PublishedIsFollowable | src/business/PlaylistBusiness/index.ts:204-232 | Once published, a playlist passes any premium user's follow check. |
| PlaylistBusiness.UnknownPlaylistFollowable | src/business/PlaylistBusiness/index.ts:204-232 | An id that no playlist row has passes any premium user's follow check, so a follow of a missing playlist is written. |
| PlaylistBusiness.GetPlaylistById | src/business/PlaylistBusiness/index.ts:241-267 | PREMIUM callers only, and a missing id is refused. Otherwise it fails iff page < 1. The result holds the playlist lookup (absent for an unknown id) and exactly the gateway's limit-10 page of its song ids for the requested page: at most 10, all linked to it. |
| PlaylistBusiness.EditCheck | src/business/PlaylistBusiness/index.ts:269-285 | Any decodable token, with no role check; then a missing id; then "not followed". It passes iff the caller follows the playlist. |
| PlaylistBusiness.EditPlaylist | src/business/PlaylistBusiness/index.ts:269-290 | A failed check or driver error leaves the table unchanged. Otherwise only the rows with that id are renamed. |
| PlaylistBusiness.CreatorMayAddAndEdit | src/business/PlaylistBusiness/index.ts:53-80 | The creator's follow, written by createPlaylist, makes the creator pass the add-song and edit checks. |
| RefreshTokenDatabase.RowRoundTrip | src/data/RefreshTokenDatabase/index.ts:13-27 | A token written as a row (isActive as 1/0) reads back as the same token. |
| RefreshTokenDatabase.CreateRefreshToken | src/data/RefreshTokenDatabase/index.ts:10-18 | Exactly one row is appended. With no try/catch, a driver failure keeps its untyped error, and the table is unchanged. |
| RefreshTokenDatabase.GetRefreshTokenByToken | src/data/RefreshTokenDatabase/index.ts:20-28 | Fails iff no row has that token: the field read of the absent row throws an untyped TypeError. Otherwise it returns a stored token with that value. |
| RefreshTokenDatabase.GetRefreshTokenByIdAndDevice | src/data/RefreshTokenDatabase/index.ts:30-40 | Undefined iff no row has that user and device. Otherwise a stored token of that user on that device. |
| RefreshTokenDatabase.CreateThenGet | src/data/RefreshTokenDatabase/index.ts:10-40 | After creating a token for a (user, device) pair that had none, the lookup for that pair returns the token with all its fields. |
| RefreshTokenDatabase.DeleteRows | src/data/RefreshTokenDatabase/index.ts:42-48 | No row with that token remains. Every other row keeps its exact number of copies. |
| RefreshTokenDatabase.DeleteRefreshTokenByToken | src/data/RefreshTokenDatabase/index.ts:42-48 | The table becomes DeleteRows of the old table. A driver failure keeps its untyped error, and the table is unchanged. |
| RefreshTokenDatabase.DeleteThenGet | src/data/RefreshTokenDatabase/index.ts:20-48 | After a delete, looking the token up fails. |

## Left out

- Controllers, routers and the entry point are not part of this model. They
  are Express plumbing; the response status is `statusCode || 400`.
- The genre controller upper-cases a genre name before it reaches
  `createMusicGenre`. The model compares names exactly as it receives them.
- The knex connection (src/data/BaseDatabase) is not part of this model:
  connection set-up and tear-down per request.
- The internals of jsonwebtoken and bcrypt are not modelled: token expiry,
  signing keys, salts and cost. The two services are the abstract functions
  described above.
- S3 upload and the file controller are not modelled. They are network I/O.
- Concurrency between requests is not modelled. There are no transactions, and
  the model is sequential.
- A driver failure of a read query is not modelled, with one exception.
  Lookups are total functions, and only statements that write take a `driver`
  parameter. The exception is a paged read whose offset `limit * (page - 1)` is
  negative: the database refuses it, and `Tables.Window` returns
  InternalServer.
- Two driver error texts are stand-ins for the driver's own wording.
  `Tables.NEGATIVE_OFFSET` is the message for a negative OFFSET; MySQL's real
  message quotes the offending value. `SongDatabase.EMPTY_UPDATE` is knex's
  refusal of an update with no columns, and its wording varies between knex
  versions. The contracts fix the error variant (InternalServer) and these
  stand-in texts, not the driver's actual text.
- The SQL collation is not modelled. A case-insensitive collation would let
  `where` match strings that differ only in letter case; the model compares
  strings exactly. `UserModel.ToLower` lower-cases ASCII letters only.
- String lengths are counted in characters, not in UTF-16 code units, so a
  password containing characters outside the BMP is measured differently.
- `page` is an integer and 0 stands for a missing page. `Number(undefined)`
  (NaN) is not modelled.
- Where several rows match a lookup, the first in insertion order is taken; SQL
  does not fix that order.
- A missing DTO field (`undefined`) is represented by the empty string or the
  empty sequence. The guards on string fields treat the two alike, since both
  are falsy. `AlbumInput.musicGenres` is the exception: when name and image are
  given and `musicGenres` is undefined, `!musicGenres.length`
  (src/business/AlbumBusiness/index.ts:32) throws a TypeError with no status
  code. The model's empty sequence answers InvalidParameter("Missing
  parameters") instead.
- HashManager.Compare: the stand-in compares with `"$2a$" + text` exactly.
  bcrypt compares only the first 72 bytes of a password, so two passwords that
  share those bytes match the same hash. No contract relies on a hash
  rejecting any other password.
- The id generator is not modelled. The generated id is a parameter, and its
  freshness is assumed nowhere.
- The PlaylistController passes the bare `name` string to `createPlaylist` where
  an object is expected. The model takes the business method as declared.
- The record classes of src/model/Song, Album, Playlist and RefreshToken are
  datatypes, with no getters or setters.
- UnauthorizedError and NotFoundError are error variants whose status codes are
  not fixed, because their files are not part of this model.
- PlaylistDatabase.GetPlaylistById: stated only as far as its caller relies on
  it (absent iff no row has the id). The gateway's SQL is not part of this model.
- PlaylistSongDatabase.GetSongsByPlaylistId: states that every returned id is
  linked to the playlist and that a page holds at most `limit` ids. It does not
  state which page of the links is returned, because the gateway's SQL is not
  part of this model.

## Findings

| source | as written | input that shows it | evidently intended | confidence | as-written member | corrected member |
|---|---|---|---|---|---|---|
| src/business/SongBusiness/index.ts:88-92 | `songDatabase.getSongById` builds `Song.toSongModel(result[0])` inside its try (src/data/SongDatabase/index.ts:95-97). For an unknown id, reading a field of the absent row throws first, and the catch rethrows it as InternalServerError. The `if (!song)` NotFound branch of the business method can never run. | any listener token and a song id that no song row has | an unknown song answers NotFound("Song not found") | not executed | SongBusiness.UnknownSongIsServerError | SongBusiness.GetSongByIdCorrected |
