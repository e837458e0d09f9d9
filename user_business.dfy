/**
  src/business/UserBusiness: account creation, login with the band-approval
  gate, band approval and the premium upgrade. Every operation runs its guard
  checks first and writes only when all of them pass.
 */
module UserBusiness {
  import opened Errors
  import opened UserModel
  import opened BandModel
  import opened Records
  import opened Database
  import opened Authenticator
  import opened HashManager
  import opened Authorization
  import UserDatabase

  /** `SignUpInputDTO`; an absent field is the empty string. */
  datatype SignUpInput = SignUpInput(name: string, nickname: string, email: string, password: string, description: string)

  /** `LoginInputDTO`; `username` is a nickname or an email. */
  datatype LoginInput = LoginInput(username: string, password: string, device: string)

  /** `EditProfileDTO` without its id, which comes from the token. */
  datatype EditProfileInput = EditProfileInput(name: string)

  const USER_MIN_PASSWORD := 6
  const ADMIN_MIN_PASSWORD := 10

  const MISSING_PARAMETERS := "Missing parameters"
  const INVALID_EMAIL := "Invalid email"
  const INVALID_PASSWORD := "Invalid password"
  const USER_NOT_FOUND := "User not found"
  const BAND_NOT_APPROVED := "Band must be approved to get logged in"
  const INCORRECT_PASSWORD := "Incorrect password"
  const ALREADY_APPROVED := "Band has already been approved"
  const ALREADY_PREMIUM := "User has already been premium"

  /**
    The validation shared by `signUp`, `createAdmin` and `createBand`, in its
    order: a missing field, then an email without '@', then a short password.
   */
  function ValidateAccount(required: seq<string>, email: string, password: string, minPassword: nat): (r: Outcome)
    ensures r == Pass <==> "" !in required && '@' in email && |password| >= minPassword
    ensures "" in required ==> r == Fail(InvalidParameter(MISSING_PARAMETERS))
    ensures "" !in required && '@' !in email ==> r == Fail(InvalidParameter(INVALID_EMAIL))
    ensures "" !in required && '@' in email && |password| < minPassword ==> r == Fail(InvalidParameter(INVALID_PASSWORD))
  {
    if "" in required then Fail(InvalidParameter(MISSING_PARAMETERS))
    else if '@' !in email then Fail(InvalidParameter(INVALID_EMAIL))
    else if |password| < minPassword then Fail(InvalidParameter(INVALID_PASSWORD))
    else Pass
  }

  function UserFieldsOf(input: SignUpInput): seq<string> {
    [input.name, input.nickname, input.email, input.password]
  }

  function BandFieldsOf(input: SignUpInput): seq<string> {
    [input.name, input.nickname, input.email, input.password, input.description]
  }

  /** The row an account creation stores: the hash of the password, never the password. */
  function AccountRow(id: string, input: SignUpInput, role: UserRole): UserRow {
    UserDatabase.UserRowOf(id, input.name, input.nickname, input.email, Hash(input.password), role)
  }

  /** The row `createBand` stores: a BAND account, not yet approved. */
  function BandRow(id: string, input: SignUpInput): UserRow {
    UserDatabase.BandRowOf(id, input.name, input.nickname, input.email, Hash(input.password), BAND,
                           input.description, false)
  }

  /** `signUp`: a FREE account, and an access token for it. */
  method SignUp(db: Store, input: SignUpInput, id: string, driver: Option<string>) returns (r: Result<Token>)
    modifies db`users
    ensures var check := ValidateAccount(UserFieldsOf(input), input.email, input.password, USER_MIN_PASSWORD);
      if check.Fail? then r == Err(check.error) && db.users == old(db.users)
      else if driver.Some? then r == Err(InternalServer(driver.value)) && db.users == old(db.users)
      else db.users == old(db.users) + [AccountRow(id, input, FREE)]
           && r == Ok(GenerateToken(AuthenticationData(id, RoleValue(FREE))))
    ensures r.Ok? ==> db.users[|db.users| - 1].password != input.password
    ensures r.Ok? ==> Compare(input.password, db.users[|db.users| - 1].password)
  {
    var check := ValidateAccount(UserFieldsOf(input), input.email, input.password, USER_MIN_PASSWORD);
    if check.Fail? {
      return Err(check.error);
    }
    var hashPassword := Hash(input.password);
    LowerNamesParse();
    var role := StringToUserRole("free");
    var user := User.ToUserModel(UserFields(id, input.name, input.nickname, input.email, hashPassword, role));
    var written := UserDatabase.CreateUser(db, user, driver);
    if written.Fail? {
      return Err(written.error);
    }
    r := Ok(GenerateToken(AuthenticationData(id, RoleValue(role))));
  }

  /** `createAdmin`: an ADMIN account, created by an admin, with the longer minimum password. */
  method CreateAdmin(db: Store, token: Token, input: SignUpInput, id: string, driver: Option<string>)
    returns (r: Result<string>)
    modifies db`users
    ensures var auth := Authorize(token, {ADMIN}, ONLY_ADMIN);
      var check := ValidateAccount(UserFieldsOf(input), input.email, input.password, ADMIN_MIN_PASSWORD);
      if auth.Err? then r == Err(auth.error) && db.users == old(db.users)
      else if check.Fail? then r == Err(check.error) && db.users == old(db.users)
      else if driver.Some? then r == Err(InternalServer(driver.value)) && db.users == old(db.users)
      else db.users == old(db.users) + [AccountRow(id, input, ADMIN)] && r == Ok("Admin created successfully")
  {
    var auth := Authorize(token, {ADMIN}, ONLY_ADMIN);
    if auth.Err? {
      return Err(auth.error);
    }
    var check := ValidateAccount(UserFieldsOf(input), input.email, input.password, ADMIN_MIN_PASSWORD);
    if check.Fail? {
      return Err(check.error);
    }
    var hashPassword := Hash(input.password);
    LowerNamesParse();
    var role := StringToUserRole("admin");
    var user := User.ToUserModel(UserFields(id, input.name, input.nickname, input.email, hashPassword, role));
    var written := UserDatabase.CreateUser(db, user, driver);
    if written.Fail? {
      return Err(written.error);
    }
    r := Ok("Admin created successfully");
  }

  /** `createBand`: a BAND account with a description, waiting for approval. */
  method CreateBand(db: Store, input: SignUpInput, id: string, driver: Option<string>) returns (r: Result<string>)
    modifies db`users
    ensures var check := ValidateAccount(BandFieldsOf(input), input.email, input.password, USER_MIN_PASSWORD);
      if check.Fail? then r == Err(check.error) && db.users == old(db.users)
      else if driver.Some? then r == Err(InternalServer(driver.value)) && db.users == old(db.users)
      else db.users == old(db.users) + [BandRow(id, input)] && r == Ok("Band created successfully")
  {
    var check := ValidateAccount(BandFieldsOf(input), input.email, input.password, USER_MIN_PASSWORD);
    if check.Fail? {
      return Err(check.error);
    }
    var hashPassword := Hash(input.password);
    LowerNamesParse();
    var role := StringToUserRole("band");
    var isApproved := false;
    var band := Band.ToBandModel(BandFields(id, input.name, input.nickname, input.email, hashPassword, role,
                                            input.description, Some(isApproved)));
    var written := UserDatabase.CreateBand(db, band, driver);
    if written.Fail? {
      return Err(written.error);
    }
    r := Ok("Band created successfully");
  }

  /** Is the account a band that has not been approved? */
  predicate Unapproved(a: UserDatabase.Account) {
    a.BandAccount? && !a.isApproved
  }

  /**
    `login`: look the user up by nickname or email; refuse an unapproved band
    whatever the password, then a wrong password; otherwise issue a token
    carrying the stored id and role.
   */
  function Login(users: seq<UserRow>, input: LoginInput): (r: Result<Token>)
    ensures input.username == "" || input.password == "" ==> r == Err(InvalidParameter(MISSING_PARAMETERS))
    ensures var found := UserDatabase.GetUserByQuery(users, input.username);
      input.username != "" && input.password != "" ==>
        (found.None? ==> r == Err(NotFound(USER_NOT_FOUND))) &&
        (found.Some? && Unapproved(found.value) ==> r == Err(Unauthorized(BAND_NOT_APPROVED))) &&
        (found.Some? && !Unapproved(found.value) && !Compare(input.password, found.value.password) ==>
           r == Err(InvalidParameter(INCORRECT_PASSWORD)))
    ensures var found := UserDatabase.GetUserByQuery(users, input.username);
      r.Ok? ==> found.Some? && !Unapproved(found.value) && Compare(input.password, found.value.password) &&
                GetData(r.value) == Ok(AuthenticationData(found.value.id, RoleValue(found.value.Role())))
    ensures var found := UserDatabase.GetUserByQuery(users, input.username);
      input.username != "" && input.password != "" && found.Some? && !Unapproved(found.value) &&
      Compare(input.password, found.value.password) ==>
        r == Ok(GenerateToken(AuthenticationData(found.value.id, RoleValue(found.value.Role()))))
  {
    if input.username == "" || input.password == "" then Err(InvalidParameter(MISSING_PARAMETERS))
    else
      match UserDatabase.GetUserByQuery(users, input.username)
      case None => Err(NotFound(USER_NOT_FOUND))
      case Some(user) =>
        if user.Role() == BAND && !user.isApproved then Err(Unauthorized(BAND_NOT_APPROVED))
        else if !Compare(input.password, user.password) then Err(InvalidParameter(INCORRECT_PASSWORD))
        else Ok(GenerateToken(AuthenticationData(user.id, RoleValue(user.Role()))))
  }

  /** `getAllBands`: admins only. */
  function GetAllBands(users: seq<UserRow>, token: Token): (r: Result<seq<UserDatabase.BandSummary>>)
    ensures r.Ok? <==> Authorize(token, {ADMIN}, ONLY_ADMIN).Ok?
    ensures r.Err? ==> r.error == Authorize(token, {ADMIN}, ONLY_ADMIN).error
    ensures r.Ok? ==> r.value == UserDatabase.GetAllBands(users)
  {
    var _ :- Authorize(token, {ADMIN}, ONLY_ADMIN);
    Ok(UserDatabase.GetAllBands(users))
  }

  /**
    The guards of `approveBand`: an admin caller, an existing user, and not a
    band that is already approved (a user with another role passes).
   */
  function ApproveBandCheck(users: seq<UserRow>, token: Token, bandId: string): (r: Outcome)
    ensures var auth := Authorize(token, {ADMIN}, ONLY_ADMIN);
      var user := UserDatabase.GetUserById(users, bandId);
      (auth.Err? ==> r == Fail(auth.error)) &&
      (auth.Ok? && user.None? ==> r == Fail(NotFound(USER_NOT_FOUND))) &&
      (auth.Ok? && user.Some? && user.value.role == BAND && user.value.isApproved == Some(true) ==>
         r == Fail(InvalidParameter(ALREADY_APPROVED))) &&
      (r == Pass <==> auth.Ok? && user.Some? && !(user.value.role == BAND && user.value.isApproved == Some(true)))
  {
    match Authorize(token, {ADMIN}, ONLY_ADMIN)
    case Err(e) => Fail(e)
    case Ok(_) =>
      match UserDatabase.GetUserById(users, bandId)
      case None => Fail(NotFound(USER_NOT_FOUND))
      case Some(user) =>
        RoleRoundTrip(user.role);
        if StringToUserRole(RoleValue(user.role)) == BAND && user.isApproved == Some(true) then
          Fail(InvalidParameter(ALREADY_APPROVED))
        else Pass
  }

  /** `approveBand` */
  method ApproveBand(db: Store, token: Token, bandId: string, driver: Option<string>) returns (r: Result<string>)
    modifies db`users
    ensures var check := ApproveBandCheck(old(db.users), token, bandId);
      if check.Fail? then r == Err(check.error) && db.users == old(db.users)
      else if driver.Some? then r == Err(InternalServer(driver.value)) && db.users == old(db.users)
      else db.users == UserDatabase.ApproveRows(old(db.users), bandId) && r == Ok("Band approved successfully")
  {
    var check := ApproveBandCheck(db.users, token, bandId);
    if check.Fail? {
      return Err(check.error);
    }
    var written := UserDatabase.ApproveBand(db, bandId, driver);
    if written.Fail? {
      return Err(written.error);
    }
    r := Ok("Band approved successfully");
  }

  /** The guards of `updateFreeToPremium`: an admin caller, an existing user, not yet PREMIUM. */
  function UpgradeCheck(users: seq<UserRow>, token: Token, userId: string): (r: Outcome)
    ensures var auth := Authorize(token, {ADMIN}, ONLY_ADMIN);
      var user := UserDatabase.GetUserById(users, userId);
      (auth.Err? ==> r == Fail(auth.error)) &&
      (auth.Ok? && user.None? ==> r == Fail(NotFound(USER_NOT_FOUND))) &&
      (auth.Ok? && user.Some? && user.value.role == PREMIUM ==> r == Fail(InvalidParameter(ALREADY_PREMIUM))) &&
      (r == Pass <==> auth.Ok? && user.Some? && user.value.role != PREMIUM)
  {
    match Authorize(token, {ADMIN}, ONLY_ADMIN)
    case Err(e) => Fail(e)
    case Ok(_) =>
      match UserDatabase.GetUserById(users, userId)
      case None => Fail(NotFound(USER_NOT_FOUND))
      case Some(user) =>
        RoleRoundTrip(user.role);
        if StringToUserRole(RoleValue(user.role)) == PREMIUM then Fail(InvalidParameter(ALREADY_PREMIUM))
        else Pass
  }

  /** `updateFreeToPremium` */
  method UpdateFreeToPremium(db: Store, token: Token, userId: string, driver: Option<string>) returns (r: Result<string>)
    modifies db`users
    ensures var check := UpgradeCheck(old(db.users), token, userId);
      if check.Fail? then r == Err(check.error) && db.users == old(db.users)
      else if driver.Some? then r == Err(InternalServer(driver.value)) && db.users == old(db.users)
      else db.users == UserDatabase.UpgradeRows(old(db.users), userId) && r == Ok("Updated to premium successfully")
  {
    var check := UpgradeCheck(db.users, token, userId);
    if check.Fail? {
      return Err(check.error);
    }
    var written := UserDatabase.UpdateFreeToPremium(db, userId, driver);
    if written.Fail? {
      return Err(written.error);
    }
    r := Ok("Updated to premium successfully");
  }

  /** `getProfile`: the caller's own profile, for any role. */
  function GetProfile(users: seq<UserRow>, token: Token): (r: Result<UserDatabase.Profile>)
    ensures GetData(token).Err? ==> r == Err(GetData(token).error)
    ensures GetData(token).Ok? ==>
      match UserDatabase.GetUserById(users, GetData(token).value.id)
      case None => r == Err(NotFound(USER_NOT_FOUND))
      case Some(p) => r == Ok(p)
  {
    var auth :- GetData(token);
    match UserDatabase.GetUserById(users, auth.id)
    case None => Err(NotFound(USER_NOT_FOUND))
    case Some(p) => Ok(p)
  }

  /** `editProfile`: renames the caller's own row; no role check and no validation. */
  method EditProfile(db: Store, token: Token, input: EditProfileInput, driver: Option<string>) returns (r: Result<string>)
    modifies db`users
    ensures GetData(token).Err? ==> r == Err(GetData(token).error) && db.users == old(db.users)
    ensures GetData(token).Ok? && driver.Some? ==> r == Err(InternalServer(driver.value)) && db.users == old(db.users)
    ensures GetData(token).Ok? && driver.None? ==>
      db.users == UserDatabase.RenameRows(old(db.users), GetData(token).value.id, input.name) &&
      r == Ok("Profile edited successfully")
  {
    var auth := GetData(token);
    if auth.Err? {
      return Err(auth.error);
    }
    var written := UserDatabase.EditProfile(db, auth.value.id, input.name, driver);
    if written.Fail? {
      return Err(written.error);
    }
    r := Ok("Profile edited successfully");
  }

  /** A new account whose nickname no earlier row uses can log in with its password, as FREE. */
  lemma {:induction false} LoginAfterSignUp(users: seq<UserRow>, input: SignUpInput, id: string, device: string)
    requires ValidateAccount(UserFieldsOf(input), input.email, input.password, USER_MIN_PASSWORD) == Pass
    requires forall i :: 0 <= i < |users| ==> !UserDatabase.MatchesQuery(users[i], input.nickname)
    ensures Login(users + [AccountRow(id, input, FREE)], LoginInput(input.nickname, input.password, device)) ==
            Ok(GenerateToken(AuthenticationData(id, RoleValue(FREE))))
  {
    var row := AccountRow(id, input, FREE);
    UserDatabase.QueryFindsAppended(users, row, input.nickname);
    UserDatabase.UserRowReadsBack(id, input.name, input.nickname, input.email, Hash(input.password), FREE);
    CompareOwnHash(input.password);
  }

  /** A sign-up token authorizes exactly the operations open to FREE users. */
  lemma SignUpTokenIsFree(id: string, allowed: set<UserRole>, denial: string)
    ensures Authorize(GenerateToken(AuthenticationData(id, RoleValue(FREE))), allowed, denial).Ok? <==> FREE in allowed
  {
    IssuedTokenAuthorizes(id, FREE, allowed, denial);
  }

  /** A new band cannot log in, even with its own password, until it is approved; then it can, as BAND. */
  lemma {:induction false} BandLoginNeedsApproval(users: seq<UserRow>, input: SignUpInput, id: string, device: string)
    requires forall i :: 0 <= i < |users| ==> !UserDatabase.MatchesQuery(users[i], input.nickname)
    requires forall i :: 0 <= i < |users| ==> users[i].id != id
    requires input.nickname != "" && input.password != ""
    ensures Login(users + [BandRow(id, input)], LoginInput(input.nickname, input.password, device)) ==
            Err(Unauthorized(BAND_NOT_APPROVED))
    ensures Login(UserDatabase.ApproveRows(users + [BandRow(id, input)], id), LoginInput(input.nickname, input.password, device)) ==
            Ok(GenerateToken(AuthenticationData(id, RoleValue(BAND))))
  {
    var row := BandRow(id, input);
    UserDatabase.QueryFindsAppended(users, row, input.nickname);
    UserDatabase.BandRowReadsBack(id, input.name, input.nickname, input.email, Hash(input.password), input.description, false);
    var approved := UserDatabase.ApproveRows(users + [row], id);
    assert approved == users + [row.(isApproved := Some(1))];
    UserDatabase.QueryFindsAppended(users, row.(isApproved := Some(1)), input.nickname);
    UserDatabase.BandRowReadsBack(id, input.name, input.nickname, input.email, Hash(input.password), input.description, true);
    assert row.(isApproved := Some(1)) ==
      UserDatabase.BandRowOf(id, input.name, input.nickname, input.email, Hash(input.password), BAND, input.description, true);
    CompareOwnHash(input.password);
  }

  /** Approving a band a second time is refused. */
  lemma {:induction false} ApproveTwiceFails(users: seq<UserRow>, token: Token, bandId: string)
    requires ApproveBandCheck(users, token, bandId) == Pass
    requires UserDatabase.GetUserById(users, bandId).value.role == BAND
    ensures ApproveBandCheck(UserDatabase.ApproveRows(users, bandId), token, bandId) == Fail(InvalidParameter(ALREADY_APPROVED))
  {
    UserDatabase.ApprovedProfile(users, bandId);
  }

  /** Upgrading a user to premium a second time is refused. */
  lemma {:induction false} UpgradeTwiceFails(users: seq<UserRow>, token: Token, userId: string)
    requires UpgradeCheck(users, token, userId) == Pass
    ensures UpgradeCheck(UserDatabase.UpgradeRows(users, userId), token, userId) == Fail(InvalidParameter(ALREADY_PREMIUM))
  {
    UserDatabase.UpgradedProfile(users, userId);
  }
}
