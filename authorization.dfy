/**
  The guard every business operation opens with: decode the token, parse its
  role with `stringToUserRole`, and refuse roles outside the operation's
  allow-list.
 */
module Authorization {
  import opened Errors
  import opened UserModel
  import opened Authenticator

  /**
    `getData(token)` followed by `if (role not in allowed) throw new
    UnauthorizedError(denial)`; the decoded payload on success.
   */
  function Authorize(token: Token, allowed: set<UserRole>, denial: string): (r: Result<AuthenticationData>)
    ensures r.Ok? <==> GetData(token).Ok? && StringToUserRole(GetData(token).value.role) in allowed
    ensures r.Ok? ==> r.value == GetData(token).value
    ensures GetData(token).Err? ==> r == Err(GetData(token).error)
    ensures GetData(token).Ok? && StringToUserRole(GetData(token).value.role) !in allowed ==>
              r == Err(Unauthorized(denial))
  {
    var data :- GetData(token);
    if StringToUserRole(data.role) in allowed then Ok(data) else Err(Unauthorized(denial))
  }

  /** A token issued for a role passes exactly the guards that allow that role. */
  lemma {:induction false} IssuedTokenAuthorizes(id: string, role: UserRole, allowed: set<UserRole>, denial: string)
    ensures Authorize(GenerateToken(AuthenticationData(id, RoleValue(role))), allowed, denial).Ok? <==> role in allowed
  {
    RoleRoundTrip(role);
  }

  const ONLY_ADMIN := "Only accessible for admin"
  const ONLY_BAND := "Only accessible for band"
  const ONLY_LISTENER := "Only accessible for listener, free or premium"
  const ONLY_PREMIUM := "Only accessible for premium user"
}
