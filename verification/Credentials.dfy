/** The identity an authenticated request carries, and the check every endpoint starts with. */
module Credentials {
  import opened Basics
  import opened Tables

  datatype TokenType = Access | Refresh | Basic

  /** Claims of a verified token; Basic authentication fills in only the first, third and fourth. */
  datatype Creds = Creds(subject: Uuid, id: Uuid, roles: set<string>, typ: TokenType, expiry: int)

  const ADMIN := "ADMIN"

  function GetCreds(ctx: Option<Creds>, expects: TokenType): (r: Result<Creds, Code>)
    ensures r.Ok? <==> ctx.Some? && ctx.value.typ == expects
    ensures r.Ok? ==> Some(r.value) == ctx
    ensures ctx == None ==> r == Err(Unauthenticated)
    ensures ctx.Some? && ctx.value.typ != expects ==> r == Err(InvalidArgument)
  {
    if ctx.None? then Err(Unauthenticated)
    else if ctx.value.typ != expects then Err(InvalidArgument)
    else Ok(ctx.value)
  }

  /** Only the roles inside the token count: the tables are not consulted. */
  method HasAdminRights(creds: Creds) returns (r: Result<(), Code>)
    ensures r == if "ADMIN" in creds.roles then Ok(()) else Err(PermissionDenied)
  {
    var adminRoles := [ADMIN];
    var isAuthorized := false;
    for i := 0 to |adminRoles|
      invariant !isAuthorized && forall k :: 0 <= k < i ==> adminRoles[k] !in creds.roles
    {
      if adminRoles[i] in creds.roles {
        isAuthorized := true;
        break;
      }
    }
    assert adminRoles[0] == ADMIN;
    r := if isAuthorized then Ok(()) else Err(PermissionDenied);
  }
}
