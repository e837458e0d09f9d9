/**
  src/data/UserDatabase (class `UserDatase`, table `spotenuUser`): writing
  users and bands, reading them back with role dispatch and 0/1-to-boolean
  translation, and the updates the business layer issues.
 */
module UserDatabase {
  import opened Errors
  import opened UserModel
  import opened BandModel
  import opened Records
  import opened Database
  import opened Tables

  /** What `getUserByQuery` returns: a User, or a Band when the row's role parses to BAND. */
  datatype Account =
    | UserAccount(id: string, name: string, nickname: string, email: string, password: string, role: UserRole)
    | BandAccount(id: string, name: string, nickname: string, email: string, password: string,
                  description: Option<string>, isApproved: bool)
  {
    function Role(): UserRole {
      if BandAccount? then BAND else role
    }
  }

  /** `ProfileResponseDTO`, what `getUserById` returns; it has no password field. */
  datatype Profile = Profile(
    id: string, name: string, nickname: string, email: string, role: UserRole,
    image: Option<string>, description: Option<string>, isApproved: Option<bool>)

  /** One element of `getAllBands`: the five selected columns. */
  datatype BandSummary = BandSummary(name: string, nickname: string, email: string, image: Option<string>, isApproved: bool)

  /** The row `createUser` inserts for a User; the User record has no image, so the column is null. */
  function UserRowOf(id: string, name: string, nickname: string, email: string, password: string, role: UserRole): UserRow {
    UserRow(id, name, nickname, email, password, RoleValue(role), None, None, None)
  }

  /** The row `createBand` inserts for a Band, with `is_approved` written as 1/0. */
  function BandRowOf(id: string, name: string, nickname: string, email: string, password: string, role: UserRole,
                     description: string, isApproved: bool): UserRow {
    UserRow(id, name, nickname, email, password, RoleValue(role), None, Some(description), Some(BoolToFlag(isApproved)))
  }

  /** `createUser` */
  method CreateUser(db: Store, input: User, driver: Option<string>) returns (r: Outcome)
    modifies db`users
    ensures driver.Some? ==> r == Fail(InternalServer(driver.value)) && db.users == old(db.users)
    ensures driver.None? ==> r == Pass
    ensures driver.None? ==> (db.users ==
      old(db.users) + [UserRowOf(input.id, input.name, input.nickname, input.email, input.password, input.role)])
  {
    if driver.Some? {
      return Fail(InternalServer(driver.value));
    }
    db.users := db.users + [UserRowOf(input.id, input.name, input.nickname, input.email, input.password, input.role)];
    r := Pass;
  }

  /** `createBand` */
  method CreateBand(db: Store, input: Band, driver: Option<string>) returns (r: Outcome)
    modifies db`users
    ensures driver.Some? ==> r == Fail(InternalServer(driver.value)) && db.users == old(db.users)
    ensures driver.None? ==> r == Pass
    ensures driver.None? ==> (db.users == old(db.users) +
      [BandRowOf(input.base.id, input.base.name, input.base.nickname, input.base.email, input.base.password,
                 input.base.role, input.description, input.isApproved)])
  {
    if driver.Some? {
      return Fail(InternalServer(driver.value));
    }
    var u := input.base;
    db.users := db.users + [BandRowOf(u.id, u.name, u.nickname, u.email, u.password, u.role,
                                      input.description, input.isApproved)];
    r := Pass;
  }

  /** `where({ nickname: query }).orWhere({ email: query })` */
  predicate MatchesQuery(row: UserRow, query: string) {
    row.nickname == query || row.email == query
  }

  /** The role dispatch of `getUserByQuery`: a BAND row becomes a Band, any other a User. */
  function AccountOf(row: UserRow): Account {
    if StringToUserRole(row.role) == BAND then
      BandAccount(row.id, row.name, row.nickname, row.email, row.password, row.description, FlagToBool(row.isApproved))
    else
      UserAccount(row.id, row.name, row.nickname, row.email, row.password, StringToUserRole(row.role))
  }

  /** `getUserByQuery`: the first row whose nickname or email is the query, or undefined. */
  function GetUserByQuery(users: seq<UserRow>, query: string): (r: Option<Account>)
    ensures r.None? <==> forall i :: 0 <= i < |users| ==> !MatchesQuery(users[i], query)
    ensures r.Some? ==> exists i :: 0 <= i < |users| && MatchesQuery(users[i], query) && r.value == AccountOf(users[i])
                                    && forall j :: 0 <= j < i ==> !MatchesQuery(users[j], query)
  {
    match FirstIndex(users, row => MatchesQuery(row, query))
    case None => None
    case Some(k) => Some(AccountOf(users[k]))
  }

  /**
    The profile `getUserById` builds from a row: a BAND row keeps all its
    selected columns with the flag as a boolean; any other row keeps id, name,
    nickname, email, the parsed role and image.
   */
  function ProfileOf(row: UserRow, id: string): Profile {
    if StringToUserRole(row.role) == BAND then
      Profile(row.id, row.name, row.nickname, row.email, BAND, row.image, row.description, Some(FlagToBool(row.isApproved)))
    else
      Profile(id, row.name, row.nickname, row.email, StringToUserRole(row.role), row.image, None, None)
  }

  /** `getUserById`: the first row with that id, without its password, or undefined. */
  function GetUserById(users: seq<UserRow>, id: string): (r: Option<Profile>)
    ensures r.None? <==> forall i :: 0 <= i < |users| ==> users[i].id != id
    ensures r.Some? ==> exists i :: 0 <= i < |users| && users[i].id == id && r.value == ProfileOf(users[i], id)
                                    && forall j :: 0 <= j < i ==> users[j].id != id
  {
    match FirstIndex(users, (row: UserRow) => row.id == id)
    case None => None
    case Some(k) => Some(ProfileOf(users[k], id))
  }

  /** `where({ role: 'BAND' })` */
  predicate IsBandRow(row: UserRow) {
    row.role == RoleValue(BAND)
  }

  function SummaryOf(row: UserRow): BandSummary {
    BandSummary(row.name, row.nickname, row.email, row.image, FlagToBool(row.isApproved))
  }

  /** `getAllBands`: one summary per BAND row, in table order, with `isApproved` as a boolean. */
  function GetAllBands(users: seq<UserRow>): (r: seq<BandSummary>)
    ensures |r| == |Filter(users, IsBandRow)|
    ensures forall row :: row in users && IsBandRow(row) ==> SummaryOf(row) in r
    ensures forall i :: 0 <= i < |r| ==> exists row :: row in users && IsBandRow(row) && r[i] == SummaryOf(row)
    ensures forall i :: 0 <= i < |r| ==> r[i] == SummaryOf(Filter(users, IsBandRow)[i])
  {
    var bands := Filter(users, IsBandRow);
    var r := Map(bands, SummaryOf);
    assert forall row :: row in users && IsBandRow(row) ==> row in bands;
    assert forall i :: 0 <= i < |r| ==> bands[i] in bands && r[i] == SummaryOf(bands[i]);
    r
  }

  /** `approveBand`'s update: `is_approved = 1` on the rows with that id. */
  function ApproveRows(users: seq<UserRow>, id: string): (r: seq<UserRow>)
    ensures |r| == |users|
    ensures forall i :: 0 <= i < |users| ==> r[i].id == users[i].id
    ensures forall i :: 0 <= i < |users| ==>
              r[i] == if users[i].id == id then users[i].(isApproved := Some(BoolToFlag(true))) else users[i]
  {
    Map(users, (row: UserRow) => if row.id == id then row.(isApproved := Some(BoolToFlag(true))) else row)
  }

  /** `approveBand` */
  method ApproveBand(db: Store, id: string, driver: Option<string>) returns (r: Outcome)
    modifies db`users
    ensures driver.Some? ==> r == Fail(InternalServer(driver.value)) && db.users == old(db.users)
    ensures driver.None? ==> r == Pass && db.users == ApproveRows(old(db.users), id)
  {
    if driver.Some? {
      return Fail(InternalServer(driver.value));
    }
    db.users := ApproveRows(db.users, id);
    r := Pass;
  }

  /** The update `updateFreeToPremium` is assumed to issue: role PREMIUM on the rows with that id. */
  function UpgradeRows(users: seq<UserRow>, id: string): (r: seq<UserRow>)
    ensures |r| == |users|
    ensures forall i :: 0 <= i < |users| ==> r[i].id == users[i].id
    ensures forall i :: 0 <= i < |users| ==>
              r[i] == if users[i].id == id then users[i].(role := RoleValue(PREMIUM)) else users[i]
  {
    Map(users, (row: UserRow) => if row.id == id then row.(role := RoleValue(PREMIUM)) else row)
  }

  /** `updateFreeToPremium` (its source is not part of this model) */
  method UpdateFreeToPremium(db: Store, id: string, driver: Option<string>) returns (r: Outcome)
    modifies db`users
    ensures driver.Some? ==> r == Fail(InternalServer(driver.value)) && db.users == old(db.users)
    ensures driver.None? ==> r == Pass && db.users == UpgradeRows(old(db.users), id)
  {
    if driver.Some? {
      return Fail(InternalServer(driver.value));
    }
    db.users := UpgradeRows(db.users, id);
    r := Pass;
  }

  /** The update `editProfile` is assumed to issue: the new name on the rows with that id. */
  function RenameRows(users: seq<UserRow>, id: string, name: string): (r: seq<UserRow>)
    ensures |r| == |users|
    ensures forall i :: 0 <= i < |users| ==>
              r[i] == if users[i].id == id then users[i].(name := name) else users[i]
  {
    Map(users, (row: UserRow) => if row.id == id then row.(name := name) else row)
  }

  /** `editProfile` (its source is not part of this model) */
  method EditProfile(db: Store, id: string, name: string, driver: Option<string>) returns (r: Outcome)
    modifies db`users
    ensures driver.Some? ==> r == Fail(InternalServer(driver.value)) && db.users == old(db.users)
    ensures driver.None? ==> r == Pass && db.users == RenameRows(old(db.users), id, name)
  {
    if driver.Some? {
      return Fail(InternalServer(driver.value));
    }
    db.users := RenameRows(db.users, id, name);
    r := Pass;
  }

  /** A user row reads back with the role it was written with, as a User, or as an unapproved Band. */
  lemma {:induction false} UserRowReadsBack(id: string, name: string, nickname: string, email: string, password: string, role: UserRole)
    ensures AccountOf(UserRowOf(id, name, nickname, email, password, role)) ==
      if role == BAND then BandAccount(id, name, nickname, email, password, None, false)
      else UserAccount(id, name, nickname, email, password, role)
  {
    RoleRoundTrip(role);
  }

  /** A band row reads back as a Band with the same description and approval flag. */
  lemma {:induction false} BandRowReadsBack(id: string, name: string, nickname: string, email: string, password: string,
                                            description: string, isApproved: bool)
    ensures AccountOf(BandRowOf(id, name, nickname, email, password, BAND, description, isApproved)) ==
      BandAccount(id, name, nickname, email, password, Some(description), isApproved)
    ensures ProfileOf(BandRowOf(id, name, nickname, email, password, BAND, description, isApproved), id).isApproved ==
      Some(isApproved)
  {
    RoleRoundTrip(BAND);
  }

  /** A row appended after no other match is what the query finds. */
  lemma {:induction false} QueryFindsAppended(users: seq<UserRow>, row: UserRow, query: string)
    requires forall i :: 0 <= i < |users| ==> !MatchesQuery(users[i], query)
    requires MatchesQuery(row, query)
    ensures GetUserByQuery(users + [row], query) == Some(AccountOf(row))
  {
    var all := users + [row];
    assert all[|users|] == row;
    assert forall i :: 0 <= i < |users| ==> all[i] == users[i];
  }

  /** Updates that keep every id keep the position of the first row with a given id. */
  lemma {:induction false} SameIdsSameFirst(users: seq<UserRow>, updated: seq<UserRow>, id: string)
    requires |updated| == |users|
    requires forall i :: 0 <= i < |users| ==> updated[i].id == users[i].id
    ensures FirstIndex(updated, (row: UserRow) => row.id == id) == FirstIndex(users, (row: UserRow) => row.id == id)
  {
  }

  /** After `approveBand(id)`, the profile of that id says the band is approved. */
  lemma {:induction false} ApprovedProfile(users: seq<UserRow>, id: string)
    requires GetUserById(users, id).Some?
    requires GetUserById(users, id).value.role == BAND
    ensures GetUserById(ApproveRows(users, id), id).Some?
    ensures GetUserById(ApproveRows(users, id), id).value.role == BAND
    ensures GetUserById(ApproveRows(users, id), id).value.isApproved == Some(true)
  {
    var approved := ApproveRows(users, id);
    SameIdsSameFirst(users, approved, id);
    var k := FirstIndex(users, (row: UserRow) => row.id == id).value;
    assert approved[k] == users[k].(isApproved := Some(1));
  }

  /** After `updateFreeToPremium(id)`, the profile of that id has role PREMIUM. */
  lemma {:induction false} UpgradedProfile(users: seq<UserRow>, id: string)
    requires GetUserById(users, id).Some?
    ensures GetUserById(UpgradeRows(users, id), id).Some?
    ensures GetUserById(UpgradeRows(users, id), id).value.role == PREMIUM
  {
    var upgraded := UpgradeRows(users, id);
    SameIdsSameFirst(users, upgraded, id);
    var k := FirstIndex(users, (row: UserRow) => row.id == id).value;
    assert upgraded[k] == users[k].(role := RoleValue(PREMIUM));
    RoleRoundTrip(PREMIUM);
  }
}
