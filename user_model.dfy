/**
  src/model/User: the role enumeration, the case-insensitive role parser and
  the mutable User record.
 */
module UserModel {

  /** `USER_ROLES` */
  datatype UserRole = BAND | FREE | PREMIUM | ADMIN

  /** The string value of each enum member (`BAND = 'BAND'`, ...). */
  function RoleValue(r: UserRole): string {
    match r
    case BAND => "BAND"
    case FREE => "FREE"
    case PREMIUM => "PREMIUM"
    case ADMIN => "ADMIN"
  }

  /** `toLowerCase` on one character; only the ASCII letters have a lower case here. */
  function LowerChar(c: char): char {
    if 'A' <= c <= 'Z' then (c as int + 32) as char else c
  }

  /** `String.prototype.toLowerCase`, letter by letter. */
  function ToLower(s: string): (r: string)
    ensures |r| == |s|
    ensures forall i :: 0 <= i < |s| ==> r[i] == LowerChar(s[i])
  {
    if s == [] then [] else [LowerChar(s[0])] + ToLower(s[1..])
  }

  lemma {:induction false} ToLowerIdempotent(s: string)
    ensures ToLower(ToLower(s)) == ToLower(s)
  {
    var once := ToLower(s);
    var twice := ToLower(once);
    assert forall i :: 0 <= i < |s| ==> twice[i] == LowerChar(LowerChar(s[i])) == once[i];
  }

  /**
    `stringToUserRole`: the input is lower-cased, then matched against the four
    role names; anything else is FREE, so the parser is total.
   */
  function StringToUserRole(role: string): (r: UserRole)
    ensures r == BAND <==> ToLower(role) == "band"
    ensures r == PREMIUM <==> ToLower(role) == "premium"
    ensures r == ADMIN <==> ToLower(role) == "admin"
    ensures r == FREE <==> ToLower(role) !in {"band", "premium", "admin"}
  {
    var lower := ToLower(role);
    if lower == "band" then BAND
    else if lower == "free" then FREE
    else if lower == "premium" then PREMIUM
    else if lower == "admin" then ADMIN
    else FREE
  }

  /** Matching ignores letter case: "BAND", "Band" and "band" parse alike. */
  lemma CaseInsensitive(role: string)
    ensures StringToUserRole(ToLower(role)) == StringToUserRole(role)
  {
    ToLowerIdempotent(role);
  }

  /** Every role's string value parses back to that role. */
  lemma {:induction false} RoleRoundTrip(r: UserRole)
    ensures StringToUserRole(RoleValue(r)) == r
  {
    match r
    case BAND => LowerLiteral("BAND", "band");
    case FREE => LowerLiteral("FREE", "free");
    case PREMIUM => LowerLiteral("PREMIUM", "premium");
    case ADMIN => LowerLiteral("ADMIN", "admin");
  }

  /** The lower-case names the business layer passes in parse to their roles. */
  lemma {:induction false} LowerNamesParse()
    ensures StringToUserRole("band") == BAND
    ensures StringToUserRole("free") == FREE
    ensures StringToUserRole("premium") == PREMIUM
    ensures StringToUserRole("admin") == ADMIN
  {
    LowerLiteral("band", "band");
    LowerLiteral("free", "free");
    LowerLiteral("premium", "premium");
    LowerLiteral("admin", "admin");
  }

  lemma LowerLiteral(s: string, lower: string)
    requires |s| == |lower|
    requires forall i :: 0 <= i < |s| ==> LowerChar(s[i]) == lower[i]
    ensures ToLower(s) == lower
  {
  }

  /** The object literal `toUserModel` reads. */
  datatype UserFields =
    UserFields(id: string, name: string, nickname: string, email: string, password: string, role: UserRole)

  /** `class User`: a getter is a read of the field, a setter an assignment to it. */
  class User {
    var id: string
    var name: string
    var nickname: string
    var email: string
    var password: string
    var role: UserRole

    constructor (id: string, name: string, nickname: string, email: string, password: string, role: UserRole)
      ensures this.id == id && this.name == name && this.nickname == nickname
      ensures this.email == email && this.password == password && this.role == role
    {
      this.id := id;
      this.name := name;
      this.nickname := nickname;
      this.email := email;
      this.password := password;
      this.role := role;
    }

    /** `toUserModel`: a new User holding the six fields unchanged. */
    static method ToUserModel(user: UserFields) returns (u: User)
      ensures fresh(u)
      ensures u.id == user.id && u.name == user.name && u.nickname == user.nickname
      ensures u.email == user.email && u.password == user.password && u.role == user.role
    {
      u := new User(user.id, user.name, user.nickname, user.email, user.password, user.role);
    }

    method SetId(id: string)
      modifies this`id
      ensures this.id == id
    {
      this.id := id;
    }

    method SetName(name: string)
      modifies this`name
      ensures this.name == name
    {
      this.name := name;
    }

    method SetNickname(nickname: string)
      modifies this`nickname
      ensures this.nickname == nickname
    {
      this.nickname := nickname;
    }

    method SetEmail(email: string)
      modifies this`email
      ensures this.email == email
    {
      this.email := email;
    }

    method SetPassword(password: string)
      modifies this`password
      ensures this.password == password
    {
      this.password := password;
    }

    method SetRole(role: UserRole)
      modifies this`role
      ensures this.role == role
    {
      this.role := role;
    }
  }
}
