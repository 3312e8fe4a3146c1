/** ozpcenter/permissions.py: the REST framework permission classes. A
    request carries its HTTP method and its user; the user's roles are its
    group names. */
module Permissions {
  import opened Profiles

  const SafeMethods: seq<string> := ["GET", "HEAD", "OPTIONS"]

  datatype RequestUser = RequestUser(authenticated: bool, username: string, groups: seq<string>)
  datatype Request = Request(httpMethod: string, user: RequestUser)

  /** Some group name of the user is one of `roleNames`. */
  predicate AnyRole(groups: seq<string>, roleNames: seq<string>) {
    exists i :: 0 <= i < |groups| && groups[i] in roleNames
  }

  /** `has_any_role`: a search over the user's group names that returns at
      the first one found in `role_names`. */
  method HasAnyRole(user: RequestUser, roleNames: seq<string>) returns (found: bool)
    ensures found <==> (exists g :: g in user.groups && g in roleNames)
    ensures found == AnyRole(user.groups, roleNames)
  {
    var i := 0;
    while i < |user.groups|
      invariant i <= |user.groups|
      invariant forall j :: 0 <= j < i ==> user.groups[j] !in roleNames
    {
      if user.groups[i] in roleNames {
        return true;
      }
      i := i + 1;
    }
    return false;
  }

  /** `IsAppsMallSteward.has_permission`: the AML role alone, with no
      authentication step. */
  function AppsMallStewardPermission(req: Request): (b: bool)
    ensures b <==> AmlStewardRole in req.user.groups
  {
    AnyRole(req.user.groups, [AmlStewardRole])
  }

  /** The subclasses of BaseAuthentication. */
  datatype AuthClass =
    | IsAppsMallStewardOrReadOnly
    | IsAmlStewardOrHasExportRole
    | IsOrgSteward
    | IsOrgStewardOrReadOnly
    | IsUser

  /** Each class's `has_authorization`. */
  function HasAuthorization(c: AuthClass, req: Request): (b: bool)
    ensures c == IsAppsMallStewardOrReadOnly ==>
      (b <==> req.httpMethod in SafeMethods || AmlStewardRole in req.user.groups)
    ensures c == IsAmlStewardOrHasExportRole ==>
      (b <==> AmlStewardRole in req.user.groups || ApiExportRole in req.user.groups)
    ensures c == IsOrgSteward ==>
      (b <==> AmlStewardRole in req.user.groups || OrgStewardRole in req.user.groups)
    ensures c == IsOrgStewardOrReadOnly ==>
      (b <==> req.httpMethod in SafeMethods || AmlStewardRole in req.user.groups
              || OrgStewardRole in req.user.groups)
    ensures c == IsUser ==>
      (b <==> AmlStewardRole in req.user.groups || OrgStewardRole in req.user.groups
              || UserRole in req.user.groups || ApiExportRole in req.user.groups)
  {
    var groups := req.user.groups;
    match c
    case IsAppsMallStewardOrReadOnly =>
      req.httpMethod in SafeMethods || AnyRole(groups, [AmlStewardRole])
    case IsAmlStewardOrHasExportRole =>
      AnyRole(groups, [ApiExportRole, AmlStewardRole])
    case IsOrgSteward =>
      AnyRole(groups, [AmlStewardRole, OrgStewardRole])
    case IsOrgStewardOrReadOnly =>
      req.httpMethod in SafeMethods || AnyRole(groups, [AmlStewardRole, OrgStewardRole])
    case IsUser =>
      AnyRole(groups, [AmlStewardRole, OrgStewardRole, UserRole, ApiExportRole])
  }

  /** `BaseAuthentication.has_permission`: an unauthenticated user is denied
      before any role is looked at. The call that refreshes the user's
      authorization is not part of this model. */
  function HasPermission(c: AuthClass, req: Request): (b: bool)
    ensures !req.user.authenticated ==> !b
    ensures req.user.authenticated ==> (b <==> HasAuthorization(c, req))
  {
    if !req.user.authenticated then false else HasAuthorization(c, req)
  }

  /** The read-only variants let every authenticated safe request through,
      whatever the user's roles. */
  lemma ReadOnlyAllowsSafeMethods(req: Request)
    requires req.user.authenticated && req.httpMethod in SafeMethods
    ensures HasPermission(IsAppsMallStewardOrReadOnly, req)
    ensures HasPermission(IsOrgStewardOrReadOnly, req)
  {
  }

  /** A user whose only group is BETA_USER is not a user for `IsUser`, and
      is not allowed to export. */
  lemma BetaUserAloneRejected(req: Request)
    requires req.user.groups == [BetaUserRole]
    ensures !HasPermission(IsUser, req)
    ensures !HasPermission(IsAmlStewardOrHasExportRole, req)
  {
    assert req.user.groups[0] == BetaUserRole;
  }
}
