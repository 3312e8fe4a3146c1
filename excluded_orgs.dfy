/** ozpcenter/models/util.py: the agencies whose private listings a profile
    may not see. Agencies are ids; `allAgencies` is the agency table. */
module ExcludedOrgs {
  import opened Profiles

  /** The agencies a profile is entitled to by its role: none needed for an
      apps-mall steward, the stewarded ones for an org steward, the ones it
      is a member of for everyone else. */
  function Entitled(p: Profile): set<nat> {
    if HighestRole(p) == OrgStewardRole then p.stewardedOrganizations else p.organizations
  }

  /** `get_user_excluded_orgs`. */
  function UserExcludedOrgs(p: Profile, allAgencies: set<nat>): (excluded: set<nat>)
    ensures excluded <= allAgencies
    ensures AmlStewardRole in GroupNames(p) ==> excluded == {}
    ensures AmlStewardRole !in GroupNames(p) ==>
      forall a :: a in allAgencies ==> (a in excluded <==> a !in Entitled(p))
  {
    var role := HighestRole(p);
    if role == AmlStewardRole then {}
    else if role == OrgStewardRole then allAgencies - p.stewardedOrganizations
    else allAgencies - p.organizations
  }

  /** Every agency is excluded or entitled, never both, unless the profile
      is an apps-mall steward (then nothing is excluded). */
  lemma ExcludedPartition(p: Profile, allAgencies: set<nat>)
    requires AmlStewardRole !in GroupNames(p)
    ensures UserExcludedOrgs(p, allAgencies) !! Entitled(p)
    ensures UserExcludedOrgs(p, allAgencies) + (Entitled(p) * allAgencies) == allAgencies
  {
  }

  /** An org steward's memberships do not matter, only what it stewards. */
  lemma OrgStewardUsesStewardedOnly(p: Profile, q: Profile, allAgencies: set<nat>)
    requires OrgStewardRole in GroupNames(p) && AmlStewardRole !in GroupNames(p)
    requires GroupNames(q) == GroupNames(p)
    requires q.stewardedOrganizations == p.stewardedOrganizations
    ensures UserExcludedOrgs(q, allAgencies) == UserExcludedOrgs(p, allAgencies)
  {
  }
}
