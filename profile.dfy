/** ozpcenter/models/profile.py: roles held as Django groups, and the
    `create_user` helper that builds a user and its profile step by step. */
module Profiles {
  import opened Wrappers
  import opened Exceptions

  const UserRole: string := "USER"
  const BetaUserRole: string := "BETA_USER"
  const OrgStewardRole: string := "ORG_STEWARD"
  const AmlStewardRole: string := "APPS_MALL_STEWARD"
  const ApiExportRole: string := "API_EXPORT"

  /** The Django user row; `groups` is its group membership, without repeats. */
  datatype User = User(username: string, email: string, password: string,
                       isSuperuser: bool, groups: seq<string>)

  /** A profile; organisations are agency ids. */
  datatype Profile = Profile(
    displayName: string, bio: string, dn: string, issuerDn: Option<string>,
    accessControl: string, user: Option<User>,
    organizations: set<nat>, stewardedOrganizations: set<nat>)

  /** `_get_group_names`. */
  function GroupNames(p: Profile): seq<string> {
    if p.user.None? then [] else p.user.value.groups
  }

  /** Precedence of the three ranked roles; every other name ranks 0. */
  function RoleRank(role: string): nat {
    if role == AmlStewardRole then 3
    else if role == OrgStewardRole then 2
    else if role == UserRole then 1
    else 0
  }

  /** `highest_role`: the group of greatest rank, or '' when the profile has
      no user, no groups, or only unranked groups (such as BETA_USER). */
  function HighestRole(p: Profile): (role: string)
    ensures |GroupNames(p)| == 0 ==> role == ""
    ensures role == "" || (role in GroupNames(p) && RoleRank(role) > 0)
    ensures forall g :: g in GroupNames(p) ==> RoleRank(g) <= RoleRank(role)
  {
    var names := GroupNames(p);
    if |names| == 0 then ""
    else if AmlStewardRole in names then AmlStewardRole
    else if OrgStewardRole in names then OrgStewardRole
    else if UserRole in names then UserRole
    else ""
  }

  function IsAppsMallSteward(p: Profile): (b: bool)
    ensures b <==> AmlStewardRole in GroupNames(p)
  {
    HighestRole(p) == AmlStewardRole
  }

  function IsSteward(p: Profile): (b: bool)
    ensures b <==> (AmlStewardRole in GroupNames(p) || OrgStewardRole in GroupNames(p))
  {
    HighestRole(p) in [AmlStewardRole, OrgStewardRole]
  }

  function IsUser(p: Profile): (b: bool)
    ensures b <==> (UserRole in GroupNames(p) && AmlStewardRole !in GroupNames(p)
                    && OrgStewardRole !in GroupNames(p))
  {
    HighestRole(p) == UserRole
  }

  /** `is_beta_user` looks at membership only, whatever `highest_role` is. */
  function IsBetaUser(p: Profile): (b: bool)
    ensures b <==> BetaUserRole in GroupNames(p)
    ensures b && |GroupNames(p)| == 1 ==> HighestRole(p) == ""
  {
    BetaUserRole in GroupNames(p)
  }

  /** The `username` property. */
  function Username(p: Profile): (u: Option<string>)
    ensures u.None? <==> p.user.None?
    ensures u.Some? ==> u.value == p.user.value.username
  {
    match p.user
    case None => None
    case Some(user) => Some(user.username)
  }

  /** The keyword arguments of `create_user`; None means "not passed". */
  datatype CreateUserArgs = CreateUserArgs(
    password: Option<string>, email: Option<string>, displayName: Option<string>,
    bio: Option<string>, accessControl: Option<string>,
    organizations: Option<seq<string>>, stewardedOrganizations: Option<seq<string>>,
    groups: Option<seq<string>>, dn: Option<string>, issuerDn: Option<string>)

  /** `json.dumps({'clearances': ['U']})`. */
  const DefaultAccessControl: string := "{\"clearances\": [\"U\"]}"

  const GroupMissing: Exception := DoesNotExist("Group matching query does not exist.")
  const AgencyMissing: Exception := DoesNotExist("Agency matching query does not exist.")

  function RequestedGroups(args: CreateUserArgs): seq<string> {
    args.groups.GetOr([UserRole])
  }

  /** Index of the first name that is not in `known` (|names| if none). */
  function FirstMissing<T(==)>(names: seq<T>, known: set<T>): (i: nat)
    ensures i <= |names|
    ensures forall j :: 0 <= j < i ==> names[j] in known
    ensures i < |names| ==> names[i] !in known
  {
    if |names| == 0 || names[0] !in known then 0
    else 1 + FirstMissing(names[1..], known)
  }

  /** Adding a group to a user's groups is a no-op when it is there already. */
  function AddGroup(groups: seq<string>, g: string): seq<string> {
    if g in groups then groups else groups + [g]
  }

  /** The groups a user holds after `user.groups.add` of each name in turn. */
  function GroupsAdded(names: seq<string>): (gs: seq<string>)
    ensures forall g :: g in gs <==> g in names
  {
    if |names| == 0 then [] else AddGroup(GroupsAdded(names[..|names| - 1]), names[|names| - 1])
  }

  /** The agency ids of the given titles. */
  function AgencyIds(titles: seq<string>, agencies: map<string, nat>): (ids: set<nat>)
    requires forall j :: 0 <= j < |titles| ==> titles[j] in agencies
    ensures forall j :: 0 <= j < |titles| ==> agencies[titles[j]] in ids
    ensures forall a :: a in ids ==> exists j :: 0 <= j < |titles| && agencies[titles[j]] == a
  {
    set j | 0 <= j < |titles| :: agencies[titles[j]]
  }

  function NewUser(username: string, args: CreateUserArgs, groups: seq<string>): User {
    var gs := RequestedGroups(args);
    User(username, args.email.GetOr(""), args.password.GetOr("password"),
         OrgStewardRole in gs || AmlStewardRole in gs, groups)
  }

  function NewProfile(username: string, args: CreateUserArgs, user: User,
                      orgs: set<nat>, stewarded: set<nat>): Profile {
    Profile(args.displayName.GetOr(username), args.password.GetOr(""),
            args.dn.GetOr(username), args.issuerDn, args.accessControl.GetOr(DefaultAccessControl),
            Some(user), orgs, stewarded)
  }

  /** The user and profile tables, with the groups and agencies that exist. */
  class Directory {
    var users: seq<User>
    var profiles: seq<Profile>
    const groups: set<string>
    var agencies: map<string, nat>

    constructor (groups: set<string>, agencies: map<string, nat>)
      ensures users == [] && profiles == []
      ensures this.groups == groups && this.agencies == agencies
    {
      users := [];
      profiles := [];
      this.groups := groups;
      this.agencies := agencies;
    }

    /** Resolves `titles` in order; stops at the first unknown title and
        returns how many were resolved. */
    method ResolveAgencies(titles: seq<string>) returns (ids: set<nat>, k: nat)
      ensures k == FirstMissing(titles, agencies.Keys)
      ensures ids == AgencyIds(titles[..k], agencies)
    {
      ids := {};
      k := 0;
      while k < |titles| && titles[k] in agencies
        invariant k <= |titles|
        invariant forall j :: 0 <= j < k ==> titles[j] in agencies
        invariant ids == AgencyIds(titles[..k], agencies)
      {
        ids := ids + {agencies[titles[k]]};
        k := k + 1;
        assert titles[..k] == titles[..k - 1] + [titles[k - 1]];
      }
      FirstMissingIsUnique(titles, agencies.Keys, k);
    }

    /** `Profile.create_user`: creates the user (a superuser when a steward
        group is requested), adds its groups, then creates the profile and
        adds its organisations. Each lookup that fails raises DoesNotExist
        and leaves what was already saved in place. */
    method CreateUser(username: string, args: CreateUserArgs) returns (r: Result<Profile, Exception>)
      modifies this`users, this`profiles
      ensures var gs := RequestedGroups(args);
              var k := FirstMissing(gs, groups);
              var u := NewUser(username, args, GroupsAdded(gs[..k]));
              && users == old(users) + [u]
              && (k < |gs| ==> r == Err(GroupMissing) && profiles == old(profiles))
              && (k == |gs| ==>
                    var orgs := args.organizations.GetOr([]);
                    var ko := FirstMissing(orgs, agencies.Keys);
                    var stew := args.stewardedOrganizations.GetOr([]);
                    var ks := FirstMissing(stew, agencies.Keys);
                    var p := NewProfile(username, args, u, AgencyIds(orgs[..ko], agencies),
                                        if ko < |orgs| then {} else AgencyIds(stew[..ks], agencies));
                    && profiles == old(profiles) + [p]
                    && r == (if ko < |orgs| || ks < |stew| then Err(AgencyMissing) else Ok(p)))
      ensures var u := users[|users| - 1];
              && (u.isSuperuser <==> (OrgStewardRole in RequestedGroups(args) || AmlStewardRole in RequestedGroups(args)))
              && u.password == args.password.GetOr("password")
      ensures r.Ok? ==> && r.value.displayName == args.displayName.GetOr(username)
                        && r.value.dn == args.dn.GetOr(username)
                        && r.value.bio == args.password.GetOr("")
                        && (forall g :: g in GroupNames(r.value) <==> g in RequestedGroups(args))
    {
      var gs := RequestedGroups(args);
      var userGroups: seq<string> := [];
      var i := 0;
      while i < |gs| && gs[i] in groups
        invariant i <= |gs|
        invariant forall j :: 0 <= j < i ==> gs[j] in groups
        invariant userGroups == GroupsAdded(gs[..i])
      {
        userGroups := AddGroup(userGroups, gs[i]);
        i := i + 1;
        assert gs[..i][..i - 1] == gs[..i - 1];
      }
      FirstMissingIsUnique(gs, groups, i);
      var user := NewUser(username, args, userGroups);
      users := users + [user];
      if i < |gs| {
        return Err(GroupMissing);
      }
      assert gs[..i] == gs;
      var orgs := args.organizations.GetOr([]);
      var orgIds, ko := ResolveAgencies(orgs);
      if ko < |orgs| {
        var p := NewProfile(username, args, user, orgIds, {});
        profiles := profiles + [p];
        return Err(AgencyMissing);
      }
      var stew := args.stewardedOrganizations.GetOr([]);
      var stewIds, ks := ResolveAgencies(stew);
      var p := NewProfile(username, args, user, orgIds, stewIds);
      profiles := profiles + [p];
      if ks < |stew| {
        return Err(AgencyMissing);
      }
      return Ok(p);
    }
  }

  /** The contract of FirstMissing pins it down: any index with its two
      properties is that index. */
  lemma {:induction false} FirstMissingIsUnique<T>(names: seq<T>, known: set<T>, k: nat)
    requires k <= |names|
    requires forall j :: 0 <= j < k ==> names[j] in known
    requires k < |names| ==> names[k] !in known
    ensures FirstMissing(names, known) == k
  {
    if |names| > 0 && names[0] in known {
      FirstMissingIsUnique(names[1..], known, k - 1);
    }
  }
}
