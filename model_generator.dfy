/** ozpcenter/scripts/model_generator.py: turns parsed seed data into
    database rows. Eleven registries map the key of each seeded entity
    (name, title, email, label, action or username) to the row made for it;
    later entities name earlier ones by key, and a key that was never
    registered fails an assertion. The ORM is abstracted as a table of rows
    whose ids are their positions, a set of many-to-many links, and the
    user directory that `Profile.create_user` writes to. */
module ModelGenerator {
  import opened Wrappers
  import opened Exceptions
  import opened Json
  import opened Text
  import opened ModelSchema
  import Profiles

  datatype Table =
    | ImageTypeTable | CategoryTable | ContactTypeTable | ListingTypeTable | TagTable
    | CustomFieldTypeTable | CustomFieldTable | ContactTable | AgencyTable | IntentTable
    | ProfileTable | ListingTable | ImageTable | CustomFieldValueTable | ScreenshotTable | DocUrlTable

  /** A saved row: its column values, and as `nat` the ids of the rows it
      points to. */
  datatype Row =
    | ImageTypeRecord(name: Json, minWidth: Json, maxWidth: Json, minHeight: Json, maxHeight: Json,
                      maxSizeBytes: Json)
    | CategoryRecord(title: Json, description: Json)
    | ContactTypeRecord(name: Json, required: Json)
    | ListingTypeRecord(title: Json, description: Json)
    | TagRecord(name: Json)
    | CustomFieldTypeRecord(name: Json, displayName: Json, mediaType: Json, options: Json)
    | CustomFieldRecord(fieldType: nat, section: Json, displayName: Json, fieldLabel: Json, description: Json,
                        tooltip: Json, isRequired: Json, adminOnly: Json, properties: Json, allListingTypes: Json)
    | ContactRecord(contactType: nat, name: Json, email: Json, organization: Json, securePhone: Json,
                    unsecurePhone: Json)
    | AgencyRecord(title: Json, shortName: Json, icon: nat)
    | IntentRecord(action: Json, mediaType: Json, intentLabel: Json, icon: nat)
    | ImageRecord(fileExtension: string, securityMarking: Json, imageType: nat)
    | ListingRecord(columns: map<string, Json>, smallIcon: nat, largeIcon: nat, bannerIcon: nat,
                    largeBannerIcon: nat, agency: nat, listingType: nat)
    | CustomFieldValueRecord(customField: nat, value: Json, listing: nat)
    | ScreenshotRecord(order: Json, description: Json, smallImage: nat, largeImage: nat, listing: nat)
    | DocUrlRecord(name: Json, url: Json, listing: nat)

  /** A many-to-many association from listing `owner` to row `target`. */
  datatype Link = Link(owner: nat, relation: string, target: nat)

  /** A listing workflow operation performed for a seeded activity. */
  datatype WorkflowCall = WorkflowCall(operation: string, author: nat, listing: nat)

  /** `'{}'.format(key)` for the keys that appear in assertion messages;
      a list or object key is shown by a placeholder. */
  function KeyText(key: Json): string {
    match key
    case JNull => "None"
    case JBool(b) => if b then "True" else "False"
    case JInt(i) => IntToString(i)
    case JStr(s) => s
    case JList(_) => "[...]"
    case JObj(_) => "{...}"
  }

  /** The assertion that fails when `key` names no registered entity. */
  function NotFound(entity: string, keyName: string, key: Json): Exception {
    AssertionError(entity + " with " + keyName + " '" + KeyText(key) + "' not found")
  }

  /** `filename.split('.')[-1]`. */
  function FileExtension(filename: string): string {
    LastPiece(filename, '.', [])
  }

  /** The extension is the text after the last '.' of the file name, or
      the whole name when it has none. */
  lemma FileExtensionAfterLastDot(filename: string)
    ensures AfterLast(filename, FileExtension(filename), '.')
  {
    SplitFromLast(filename, '.', []);
    assert [] + filename == filename;
  }

  /** The workflow operation an activity's action triggers; every other
      action triggers none. */
  function ActivityOperation(action: Json): (op: Option<string>)
    ensures op.Some? <==> action in {JStr("CREATED"), JStr("SUBMITTED"), JStr("APPROVED_ORG"), JStr("APPROVED")}
  {
    if action == JStr("CREATED") then Some("create_listing")
    else if action == JStr("SUBMITTED") then Some("submit_listing")
    else if action == JStr("APPROVED_ORG") then Some("approve_listing_by_org_steward")
    else if action == JStr("APPROVED") then Some("approve_listing")
    else None
  }

  /** The workflow calls made for `activities` on `listing`, in order; the
      first activity whose author is not registered fails, whatever its
      action. */
  function ActivityCalls(activities: seq<ListingActivityData>, profiles: map<Json, nat>, listing: nat)
    : (r: Result<seq<WorkflowCall>, Exception>)
    ensures r.Ok? <==> forall i :: 0 <= i < |activities| ==> activities[i].authorUsername in profiles
    ensures r.Ok? ==> |r.value| <= |activities|
  {
    if |activities| == 0 then Ok([])
    else
      var n := |activities|;
      var init :- ActivityCalls(activities[..n - 1], profiles, listing);
      var a := activities[n - 1];
      if a.authorUsername !in profiles then Err(NotFound("Profile", "username", a.authorUsername))
      else match ActivityOperation(a.action)
        case None => Ok(init)
        case Some(op) => Ok(init + [WorkflowCall(op, profiles[a.authorUsername], listing)])
  }

  /** Activities whose actions are all outside the four workflow actions
      make no call, once their authors resolve. */
  lemma {:induction false} IgnoredActionsCallNothing(activities: seq<ListingActivityData>, profiles: map<Json, nat>, listing: nat)
    requires forall i :: 0 <= i < |activities| ==> activities[i].authorUsername in profiles
    requires forall i :: 0 <= i < |activities| ==> ActivityOperation(activities[i].action).None?
    ensures ActivityCalls(activities, profiles, listing) == Ok([])
  {
    if |activities| > 0 {
      IgnoredActionsCallNothing(activities[..|activities| - 1], profiles, listing);
    }
  }

  /** The keys `for key in keys` visits, as a set: a list's items, a
      string's one-character strings and an object's keys. */
  function Members(keys: Json): set<Json> {
    match keys
    case JList(items) => Elements(items)
    case JStr(s) => Elements(Chars(s))
    case JObj(fields) => set k | k in fields :: JStr(k)
    case _ => {}
  }

  /** The distinct values of `xs`. */
  function Elements(xs: seq<Json>): (m: set<Json>)
    ensures forall x :: x in m <==> x in xs
  {
    set x | x in xs
  }

  /** The keys before the first unregistered one are among the keys, and
      they are all of them when every key is registered. */
  lemma LinkedPrefix(ks: seq<Json>, known: set<Json>)
    ensures Elements(ks[..Profiles.FirstMissing(ks, known)]) <= Elements(ks)
    ensures Elements(ks) <= known ==> ks[..Profiles.FirstMissing(ks, known)] == ks
  {
    var k := Profiles.FirstMissing(ks, known);
    if k < |ks| {
      assert ks[k] in Elements(ks);
    }
  }

  /** `Members` holds what iterating the value yields. */
  lemma MembersIterated(keys: Json)
    ensures Iterate(keys).Err? ==> Members(keys) == {}
    ensures !keys.JObj? && Iterate(keys).Ok? ==> Members(keys) == Elements(Iterate(keys).value)
    ensures keys.JObj? ==> forall k :: k in keys.fields <==> JStr(k) in Members(keys)
  {
  }

  /** `keys` can be iterated and every key it yields is registered. */
  predicate AllIn(keys: Json, registry: map<Json, nat>) {
    match keys
    case JList(items) => Registered(items, registry)
    case JStr(s) => Registered(Chars(s), registry)
    case JObj(fields) => forall k :: k in fields ==> JStr(k) in registry
    case _ => false
  }

  /** Every value of `xs` is registered. */
  predicate Registered(xs: seq<Json>, registry: map<Json, nat>) {
    xs == [] || (xs[0] in registry && Registered(xs[1..], registry))
  }

  lemma {:induction false} RegisteredAll(xs: seq<Json>, registry: map<Json, nat>)
    ensures Registered(xs, registry) <==> Elements(xs) <= registry.Keys
  {
    if xs != [] {
      RegisteredAll(xs[1..], registry);
      assert Elements(xs) == {xs[0]} + Elements(xs[1..]);
    }
  }

  /** `AllIn` says that every member is registered. */
  lemma AllInMembers(keys: Json, registry: map<Json, nat>)
    ensures AllIn(keys, registry) <==> (keys.JList? || keys.JStr? || keys.JObj?) && Members(keys) <= registry.Keys
  {
    if keys.JList? {
      RegisteredAll(keys.items, registry);
    } else if keys.JStr? {
      RegisteredAll(Chars(keys.s), registry);
    }
  }

  /** The links from `listing` to the rows registered under `keys`. */
  function LinksTo(listing: nat, relation: string, keys: set<Json>, registry: map<Json, nat>): (ls: set<Link>)
    ensures forall x :: x in keys && x in registry ==> Link(listing, relation, registry[x]) in ls
    ensures forall l :: l in ls ==> l.owner == listing && l.relation == relation
                                    && exists x :: x in keys && x in registry && l.target == registry[x]
  {
    set x | x in keys && x in registry :: Link(listing, relation, registry[x])
  }

  /** Linking more keys links a superset. */
  lemma LinksToGrows(listing: nat, relation: string, keys: set<Json>, x: Json, registry: map<Json, nat>)
    requires x in registry
    ensures LinksTo(listing, relation, keys + {x}, registry)
            == LinksTo(listing, relation, keys, registry) + {Link(listing, relation, registry[x])}
  {
  }

  function ImageTypeRow(d: ImageTypeData): Row {
    ImageTypeRecord(d.name, d.minWidth, d.maxWidth, d.minWidth, d.maxWidth, d.maxSizeBytes)
  }

  function CategoryRow(d: CategoryData): Row {
    CategoryRecord(d.title, d.description)
  }

  function ContactTypeRow(d: ContactTypeData): Row {
    ContactTypeRecord(d.name, d.required)
  }

  function ListingTypeRow(d: ListingTypeData): Row {
    ListingTypeRecord(d.title, d.description)
  }

  function TagRow(d: TagData): Row {
    TagRecord(d.name)
  }

  function CustomFieldTypeRow(d: CustomFieldTypeData): Row {
    CustomFieldTypeRecord(d.name, d.displayName, d.mediaType, d.options)
  }

  function CustomFieldRow(d: CustomFieldData, fieldType: nat): Row {
    CustomFieldRecord(fieldType, d.section, d.displayName, d.fieldLabel, d.description, d.tooltip,
                      d.isRequired, d.adminOnly, d.properties, d.allListingTypes)
  }

  function ContactRow(d: ContactData, contactType: nat): Row {
    ContactRecord(contactType, d.name, d.email, d.organization, d.securePhone, d.unsecurePhone)
  }

  function AgencyRow(d: AgencyData, icon: nat): Row {
    AgencyRecord(d.title, d.shortName, icon)
  }

  function IntentRow(d: IntentData, icon: nat): Row {
    IntentRecord(d.action, d.mediaType, d.intentLabel, icon)
  }

  /** The image saved for a seed image: its extension comes from the file
      name. */
  function ImageRow(d: ImageData, imageType: nat): Row
    requires d.filename.JStr?
  {
    ImageRecord(FileExtension(d.filename.s), d.securityMarking, imageType)
  }

  /** The listing columns the generator fills; `iframe_compatible`,
      `agency_title` and `listing_type_title` are not among them. */
  const ListingColumns: seq<string> := [
    "title", "description", "description_short", "launch_url", "version_name", "unique_name",
    "what_is_new", "usage_requirements", "system_requirements", "security_marking",
    "is_enabled", "is_private", "is_featured", "is_exportable"]

  function ListingRow(d: ListingData, icons: seq<nat>, agency: nat, listingType: nat): Row
    requires |icons| == 4
  {
    ListingRecord(map k | k in ListingColumns :: Get(d.scalars, k, JNull),
                  icons[0], icons[1], icons[2], icons[3], agency, listingType)
  }

  function CustomFieldValueRows(values: seq<CustomFieldValueData>, fields: map<Json, nat>, listing: nat): seq<Row>
    requires forall j :: 0 <= j < |values| ==> values[j].customFieldLabel in fields
  {
    seq(|values|, j requires 0 <= j < |values| =>
      CustomFieldValueRecord(fields[values[j].customFieldLabel], values[j].value, listing))
  }

  function DocUrlRows(docUrls: seq<DocUrlData>, listing: nat): seq<Row> {
    seq(|docUrls|, j requires 0 <= j < |docUrls| => DocUrlRecord(docUrls[j].name, docUrls[j].url, listing))
  }

  predicate ImageResolves(d: ImageData, imageTypes: map<Json, nat>) {
    d.imageTypeName in imageTypes && d.filename.JStr?
  }

  predicate ScreenshotsResolve(shots: seq<ScreenshotData>, imageTypes: map<Json, nat>) {
    forall j :: 0 <= j < |shots| ==>
      ImageResolves(shots[j].smallImage, imageTypes) && ImageResolves(shots[j].largeImage, imageTypes)
  }

  /** Screenshot `s` saves its small image, its large image and then
      itself, as rows `at`, `at + 1` and `at + 2`. */
  function ScreenshotRowsAt(s: ScreenshotData, imageTypes: map<Json, nat>, at: nat, listing: nat): seq<Row>
    requires ImageResolves(s.smallImage, imageTypes) && ImageResolves(s.largeImage, imageTypes)
  {
    [ImageRow(s.smallImage, imageTypes[s.smallImage.imageTypeName]),
     ImageRow(s.largeImage, imageTypes[s.largeImage.imageTypeName]),
     ScreenshotRecord(s.order, s.description, at, at + 1, listing)]
  }

  /** The rows of the screenshots, three each, from id `base` on. */
  function ScreenshotRows(shots: seq<ScreenshotData>, imageTypes: map<Json, nat>, base: nat, listing: nat)
    : (rows: seq<Row>)
    requires ScreenshotsResolve(shots, imageTypes)
    ensures |rows| == 3 * |shots|
  {
    if |shots| == 0 then []
    else
      var n := |shots| - 1;
      ScreenshotRows(shots[..n], imageTypes, base, listing) + ScreenshotRowsAt(shots[n], imageTypes, base + 3 * n, listing)
  }

  lemma ScreenshotRowsSnoc(shots: seq<ScreenshotData>, imageTypes: map<Json, nat>, base: nat, listing: nat, i: nat)
    requires i < |shots|
    requires ScreenshotsResolve(shots[..i], imageTypes)
    requires ImageResolves(shots[i].smallImage, imageTypes) && ImageResolves(shots[i].largeImage, imageTypes)
    ensures ScreenshotsResolve(shots[..i + 1], imageTypes)
    ensures ScreenshotRows(shots[..i + 1], imageTypes, base, listing)
            == ScreenshotRows(shots[..i], imageTypes, base, listing) + ScreenshotRowsAt(shots[i], imageTypes, base + 3 * i, listing)
  {
    assert shots[..i + 1][..i] == shots[..i];
  }

  lemma ScreenshotFails(shots: seq<ScreenshotData>, imageTypes: map<Json, nat>, i: nat)
    requires i < |shots|
    requires !(ImageResolves(shots[i].smallImage, imageTypes) && ImageResolves(shots[i].largeImage, imageTypes))
    ensures !ScreenshotsResolve(shots, imageTypes)
  {
  }

  predicate IconsResolve(d: ListingData, imageTypes: map<Json, nat>) {
    && ImageResolves(d.smallIcon, imageTypes) && ImageResolves(d.largeIcon, imageTypes)
    && ImageResolves(d.bannerIcon, imageTypes) && ImageResolves(d.largeBannerIcon, imageTypes)
  }

  /** The four icon rows a listing saves before itself. */
  function IconRows(d: ListingData, imageTypes: map<Json, nat>): (rows: seq<Row>)
    requires IconsResolve(d, imageTypes)
    ensures |rows| == 4
  {
    [ImageRow(d.smallIcon, imageTypes[d.smallIcon.imageTypeName]),
     ImageRow(d.largeIcon, imageTypes[d.largeIcon.imageTypeName]),
     ImageRow(d.bannerIcon, imageTypes[d.bannerIcon.imageTypeName]),
     ImageRow(d.largeBannerIcon, imageTypes[d.largeBannerIcon.imageTypeName])]
  }

  /** The listing fields create_listing reads through `Get`: present after
      parsing. */
  function Scalar(d: ListingData, key: string): Json {
    Get(d.scalars, key, JNull)
  }

  /** `json.dumps` turns the AccessControlData named tuple into a JSON
      array of its three fields, not an object. */
  function AccessControlJson(ac: AccessControlData): Json {
    JList([ac.clearances, ac.formalAccesses, ac.visas])
  }

  function AsText(j: Json): (r: Result<string, Exception>)
    ensures r.Ok? <==> j.JStr?
    ensures r.Ok? ==> r.value == j.s
  {
    if j.JStr? then Ok(j.s) else Err(TypeError("expected a string"))
  }

  function AsTextList(j: Json): (r: Result<seq<string>, Exception>)
    ensures r.Ok? <==> j.JList? && forall i :: 0 <= i < |j.items| ==> j.items[i].JStr?
    ensures r.Ok? ==> |r.value| == |j.items| && forall i :: 0 <= i < |j.items| ==> r.value[i] == j.items[i].s
  {
    if j.JList? && forall i :: 0 <= i < |j.items| ==> j.items[i].JStr? then
      Ok(seq(|j.items|, i requires 0 <= i < |j.items| && j.items[i].JStr? => j.items[i].s))
    else Err(TypeError("expected a list of strings"))
  }

  /** The address `create_user` stores for a seed's `email`: Django's
      `normalize_email` takes a false value (None, '', 0, [] or {}) as the
      empty address and calls `strip` on any other, which only a string
      has. */
  function SeedEmail(j: Json): (r: Result<string, Exception>)
    ensures !Truthy(j) ==> r == Ok("")
    ensures j.JStr? ==> r == Ok(j.s)
    ensures r.Err? <==> Truthy(j) && !j.JStr?
    ensures r.Err? ==> r.error == AttributeError("'" + PyTypeName(j) + "' object has no attribute 'strip'")
  {
    if !Truthy(j) then Ok("")
    else if j.JStr? then Ok(j.s)
    else Err(AttributeError("'" + PyTypeName(j) + "' object has no attribute 'strip'"))
  }

  /** The keyword arguments create_profile passes to `create_user`: every
      field except the password and the issuer DN. `create_user` never
      reads the `bio` it is given, so any value passes; it is kept as its
      `str()` text. */
  function UserArgs(p: ProfileData, accessControl: string): (r: Result<Profiles.CreateUserArgs, Exception>)
    ensures r.Ok? <==> SeedEmail(p.email).Ok? && p.displayName.JStr? && p.dn.JStr?
                       && AsTextList(p.organizations).Ok? && AsTextList(p.stewardedOrganizations).Ok?
                       && AsTextList(p.groups).Ok?
    ensures r.Ok? ==> r.value.password.None? && r.value.issuerDn.None?
                      && r.value.accessControl == Some(accessControl)
                      && r.value.email == Some(SeedEmail(p.email).value)
                      && r.value.displayName == Some(p.displayName.s) && r.value.dn == Some(p.dn.s)
                      && r.value.groups == Some(AsTextList(p.groups).value)
                      && r.value.organizations == Some(AsTextList(p.organizations).value)
                      && r.value.stewardedOrganizations == Some(AsTextList(p.stewardedOrganizations).value)
  {
    var email :- SeedEmail(p.email);
    var displayName :- AsText(p.displayName);
    var orgs :- AsTextList(p.organizations);
    var stewarded :- AsTextList(p.stewardedOrganizations);
    var groups :- AsTextList(p.groups);
    var dn :- AsText(p.dn);
    Ok(Profiles.CreateUserArgs(None, Some(email), Some(displayName), Some(KeyText(p.bio)), Some(accessControl),
                               Some(orgs), Some(stewarded), Some(groups), Some(dn), None))
  }

  /** Whether `create_user` saves the profile for `p`: its username and
      arguments are well typed, and every group, organisation and stewarded
      organisation it names exists. */
  predicate ProfileAccepted(p: ProfileData, accessControl: string, groups: set<string>, agencies: map<string, nat>) {
    && AsText(p.username).Ok? && UserArgs(p, accessControl).Ok?
    && var args := UserArgs(p, accessControl).value;
    && (forall g :: g in Profiles.RequestedGroups(args) ==> g in groups)
    && (forall o :: o in args.organizations.GetOr([]) ==> o in agencies)
    && (forall o :: o in args.stewardedOrganizations.GetOr([]) ==> o in agencies)
  }

  /** The first `i` agencies of a batch have their icons resolved, their
      rows (icon image, then agency) saved after `rows0`, and their titles
      filed at their agency rows from `titles0` and `agencies0` on. */
  predicate AgenciesSaved(ds: seq<AgencyData>, i: nat, imageTypes: map<Json, nat>,
                          rows0: seq<Row>, titles0: map<Json, nat>, agencies0: map<string, nat>,
                          rows: seq<Row>, titles: map<Json, nat>, agencies: map<string, nat>)
    requires i <= |ds|
  {
    && (forall j :: 0 <= j < i ==> ImageResolves(ds[j].icon, imageTypes))
    && rows == rows0 + IconRowsOf(ds[..i], (d: AgencyData) => d.icon, AgencyRow, imageTypes, |rows0|)
    && titles == Filed(titles0, KeysOf(ds[..i], (d: AgencyData) => d.title), |rows0| + 1, 2)
    && agencies == Filed(agencies0, KeysOf(ds[..i], (d: AgencyData) => KeyText(d.title)), |rows0| + 1, 2)
  }

  /** One more agency, saved after the others, keeps `AgenciesSaved`. */
  lemma {:induction false} AgenciesSavedStep(ds: seq<AgencyData>, i: nat, imageTypes: map<Json, nat>,
                          rows0: seq<Row>, titles0: map<Json, nat>, agencies0: map<string, nat>,
                          rows: seq<Row>, titles: map<Json, nat>, agencies: map<string, nat>,
                          rows': seq<Row>, titles': map<Json, nat>, agencies': map<string, nat>)
    requires i < |ds| && AgenciesSaved(ds, i, imageTypes, rows0, titles0, agencies0, rows, titles, agencies)
    requires ImageResolves(ds[i].icon, imageTypes)
    requires rows' == rows + [ImageRow(ds[i].icon, imageTypes[ds[i].icon.imageTypeName]), AgencyRow(ds[i], |rows|)]
    requires titles' == titles[ds[i].title := |rows| + 1]
    requires agencies' == agencies[KeyText(ds[i].title) := |rows| + 1]
    ensures AgenciesSaved(ds, i + 1, imageTypes, rows0, titles0, agencies0, rows', titles', agencies')
  {
    assert ds[..i + 1] == ds[..i] + [ds[i]];
    IconRowsGrow(rows0, ds[..i], ds[i], (d: AgencyData) => d.icon, AgencyRow, imageTypes, rows, rows');
    FiledGrow(titles0, ds, i, (d: AgencyData) => d.title, |rows0| + 1, 2, titles, titles');
    FiledGrow(agencies0, ds, i, (d: AgencyData) => KeyText(d.title), |rows0| + 1, 2, agencies, agencies');
  }

  /** `ProfileAccepted` under one run's `json.dumps`, groups and agencies. */
  function AcceptedUnder(dumps: Json -> string, groups: set<string>, agencies: map<string, nat>): ProfileData -> bool {
    (d: ProfileData) => ProfileAccepted(d, dumps(AccessControlJson(d.accessControl)), groups, agencies)
  }

  /** The access control a profile is saved with, under one run's `json.dumps`. */
  function AccessControlUnder(dumps: Json -> string): ProfileData -> string {
    (d: ProfileData) => dumps(AccessControlJson(d.accessControl))
  }

  /** The first `i` entries of a batch were accepted (`ok`) and saved: one
      user and one profile each after `users0` and `profiles0`, each profile
      with its entry's access control (`ac`) and display name, and filed
      under its username in `registry` from `registry0` on. */
  predicate ProfilesSaved(ds: seq<ProfileData>, i: nat, ok: ProfileData -> bool, ac: ProfileData -> string,
                          users0: seq<Profiles.User>, profiles0: seq<Profiles.Profile>, registry0: map<Json, nat>,
                          users: seq<Profiles.User>, profiles: seq<Profiles.Profile>, registry: map<Json, nat>)
    requires i <= |ds|
  {
    && (forall j :: 0 <= j < i ==> ok(ds[j]))
    && users0 <= users && |users| == |users0| + i
    && profiles0 <= profiles && |profiles| == |profiles0| + i
    && (forall j :: 0 <= j < i ==>
          && profiles[|profiles0| + j].accessControl == ac(ds[j])
          && ds[j].displayName == JStr(profiles[|profiles0| + j].displayName))
    && registry == Filed(registry0, KeysOf(ds[..i], (d: ProfileData) => d.username), |profiles0|, 1)
  }

  /** One more accepted entry, saved after the others, keeps `ProfilesSaved`. */
  lemma {:induction false} ProfilesSavedStep(ds: seq<ProfileData>, i: nat, ok: ProfileData -> bool, ac: ProfileData -> string,
                          users0: seq<Profiles.User>, profiles0: seq<Profiles.Profile>, registry0: map<Json, nat>,
                          users: seq<Profiles.User>, profiles: seq<Profiles.Profile>, registry: map<Json, nat>,
                          users': seq<Profiles.User>, profiles': seq<Profiles.Profile>, registry': map<Json, nat>)
    requires i < |ds| && ProfilesSaved(ds, i, ok, ac, users0, profiles0, registry0, users, profiles, registry)
    requires ok(ds[i])
    requires users <= users' && |users'| == |users| + 1
    requires profiles <= profiles' && |profiles'| == |profiles| + 1
    requires profiles'[|profiles|].accessControl == ac(ds[i])
    requires ds[i].displayName == JStr(profiles'[|profiles|].displayName)
    requires registry' == registry[ds[i].username := |profiles|]
    ensures ProfilesSaved(ds, i + 1, ok, ac, users0, profiles0, registry0, users', profiles', registry')
  {
    PrefixGrows(users0, users, users');
    PrefixGrows(profiles0, profiles, profiles');
    FiledGrow(registry0, ds, i, (d: ProfileData) => d.username, |profiles0|, 1, registry, registry');
  }

  /** A prefix of a sequence stays a prefix of any sequence that extends it. */
  lemma PrefixGrows<T>(a: seq<T>, b: seq<T>, c: seq<T>)
    requires a <= b && b <= c
    ensures a <= c && forall k :: 0 <= k < |b| ==> c[k] == b[k]
  {
  }

  /** `[key(d) for d in ds]`. */
  function KeysOf<D, K>(ds: seq<D>, key: D -> K): (ks: seq<K>)
    ensures |ks| == |ds| && forall j :: 0 <= j < |ds| ==> ks[j] == key(ds[j])
  {
    seq(|ds|, j requires 0 <= j < |ds| => key(ds[j]))
  }

  /** A registry after `registry[keys[j]] = base + step * j` for each `j`
      in order. */
  function Filed<K>(m: map<K, nat>, keys: seq<K>, base: nat, step: nat): map<K, nat>
    decreases |keys|
  {
    if keys == [] then m
    else Filed(m, keys[..|keys| - 1], base, step)[keys[|keys| - 1] := base + step * (|keys| - 1)]
  }

  /** What a registry filled in order holds: every key filed and every key
      it held before; a key filed more than once under the id of its last
      entry; a key not filed under its old id. */
  lemma {:induction false} FiledLast<K>(m: map<K, nat>, keys: seq<K>, base: nat, step: nat)
    ensures forall k :: k in Filed(m, keys, base, step) <==> k in m || k in keys
    ensures forall k :: k in m && k !in keys ==> Filed(m, keys, base, step)[k] == m[k]
    ensures forall j :: 0 <= j < |keys| && (forall l :: j < l < |keys| ==> keys[l] != keys[j]) ==>
              Filed(m, keys, base, step)[keys[j]] == base + step * j
    decreases |keys|
  {
    if keys != [] {
      var n := |keys| - 1;
      FiledLast(m, keys[..n], base, step);
      forall j | 0 <= j < |keys| && (forall l :: j < l < |keys| ==> keys[l] != keys[j])
        ensures Filed(m, keys, base, step)[keys[j]] == base + step * j
      {
        if j < n {
          assert keys[n] != keys[j];
          assert keys[..n][j] == keys[j];
          assert forall l :: j < l < n ==> keys[..n][l] == keys[l];
        }
      }
      assert forall k :: k in keys <==> k in keys[..n] || k == keys[n];
    }
  }

  /** Filing one more entry. */
  lemma FiledStep<D, K>(m: map<K, nat>, ds: seq<D>, i: nat, key: D -> K, base: nat, step: nat)
    requires i < |ds|
    ensures Filed(m, KeysOf(ds[..i + 1], key), base, step) == Filed(m, KeysOf(ds[..i], key), base, step)[key(ds[i]) := base + step * i]
  {
    assert KeysOf(ds[..i + 1], key)[..i] == KeysOf(ds[..i], key);
  }

  /** `[row(d) for d in ds]`: the rows of entities saved one per entry. */
  function RowsOf<D>(ds: seq<D>, row: D -> Row): (rs: seq<Row>)
    ensures |rs| == |ds| && forall j :: 0 <= j < |ds| ==> rs[j] == row(ds[j])
  {
    seq(|ds|, j requires 0 <= j < |ds| => row(ds[j]))
  }

  lemma RowsOfStep<D>(ds: seq<D>, i: nat, row: D -> Row)
    requires i < |ds|
    ensures RowsOf(ds[..i + 1], row) == RowsOf(ds[..i], row) + [row(ds[i])]
  {
  }

  /** One more entry saved: the rows grow by its row. */
  lemma RowsGrow<D>(before: seq<Row>, ds: seq<D>, i: nat, row: D -> Row, prev: seq<Row>, next: seq<Row>)
    requires i < |ds| && prev == before + RowsOf(ds[..i], row) && next == prev + [row(ds[i])]
    ensures next == before + RowsOf(ds[..i + 1], row)
  {
    RowsOfStep(ds, i, row);
  }

  /** One more entry filed: the registry maps its key to its id. */
  lemma FiledGrow<D, K>(m: map<K, nat>, ds: seq<D>, i: nat, key: D -> K, base: nat, step: nat,
                        prev: map<K, nat>, next: map<K, nat>)
    requires i < |ds| && prev == Filed(m, KeysOf(ds[..i], key), base, step)
    requires next == prev[key(ds[i]) := base + step * i]
    ensures next == Filed(m, KeysOf(ds[..i + 1], key), base, step)
  {
    FiledStep(m, ds, i, key, base, step);
  }

  /** `[row(d, m[ref(d)]) for d in ds]`: the rows of entities saved one per
      entry, each pointing at the registered row its `ref` names. */
  function RefRowsOf<D>(ds: seq<D>, ref: D -> Json, row: (D, nat) -> Row, m: map<Json, nat>): (rs: seq<Row>)
    requires forall j :: 0 <= j < |ds| ==> ref(ds[j]) in m
    ensures |rs| == |ds| && forall j :: 0 <= j < |ds| ==> rs[j] == row(ds[j], m[ref(ds[j])])
  {
    seq(|ds|, j requires 0 <= j < |ds| => row(ds[j], m[ref(ds[j])]))
  }

  lemma RefRowsGrow<D>(before: seq<Row>, ds: seq<D>, i: nat, ref: D -> Json, row: (D, nat) -> Row, m: map<Json, nat>,
                       prev: seq<Row>, next: seq<Row>)
    requires i < |ds| && forall j :: 0 <= j <= i ==> ref(ds[j]) in m
    requires prev == before + RefRowsOf(ds[..i], ref, row, m) && next == prev + [row(ds[i], m[ref(ds[i])])]
    ensures next == before + RefRowsOf(ds[..i + 1], ref, row, m)
  {
    assert RefRowsOf(ds[..i + 1], ref, row, m) == RefRowsOf(ds[..i], ref, row, m) + [row(ds[i], m[ref(ds[i])])];
  }

  /** The rows of entities saved with an icon each: the icon's image row,
      then the entity's row pointing at it, from `base` on. */
  function IconRowsOf<D>(ds: seq<D>, icon: D -> ImageData, row: (D, nat) -> Row, imageTypes: map<Json, nat>, base: nat): (rs: seq<Row>)
    requires forall j :: 0 <= j < |ds| ==> ImageResolves(icon(ds[j]), imageTypes)
    ensures |rs| == 2 * |ds|
    decreases |ds|
  {
    if ds == [] then []
    else
      var n := |ds| - 1;
      assert ImageResolves(icon(ds[n]), imageTypes);
      IconRowsOf(ds[..n], icon, row, imageTypes, base)
        + [ImageRow(icon(ds[n]), imageTypes[icon(ds[n]).imageTypeName]), row(ds[n], base + 2 * n)]
  }

  /** One more entity with an icon: its two rows follow the others. */
  lemma {:induction false} IconRowsSnoc<D>(xs: seq<D>, d: D, icon: D -> ImageData, row: (D, nat) -> Row, imageTypes: map<Json, nat>, base: nat)
    requires forall j :: 0 <= j < |xs| ==> ImageResolves(icon(xs[j]), imageTypes)
    requires ImageResolves(icon(d), imageTypes)
    ensures IconRowsOf(xs + [d], icon, row, imageTypes, base)
            == IconRowsOf(xs, icon, row, imageTypes, base) + [ImageRow(icon(d), imageTypes[icon(d).imageTypeName]), row(d, base + 2 * |xs|)]
  {
    assert (xs + [d])[..|xs|] == xs;
  }

  /** The two rows saved for one more entity extend the rows of the entities before it. */
  lemma {:induction false} IconRowsGrow<D>(before: seq<Row>, xs: seq<D>, d: D, icon: D -> ImageData, row: (D, nat) -> Row, imageTypes: map<Json, nat>, prev: seq<Row>, next: seq<Row>)
    requires forall j :: 0 <= j < |xs| ==> ImageResolves(icon(xs[j]), imageTypes)
    requires ImageResolves(icon(d), imageTypes)
    requires prev == before + IconRowsOf(xs, icon, row, imageTypes, |before|)
    requires next == prev + [ImageRow(icon(d), imageTypes[icon(d).imageTypeName]), row(d, |prev|)]
    ensures next == before + IconRowsOf(xs + [d], icon, row, imageTypes, |before|)
  {
    IconRowsSnoc(xs, d, icon, row, imageTypes, |before|);
    SnocAfter(before, IconRowsOf(xs, icon, row, imageTypes, |before|), [ImageRow(icon(d), imageTypes[icon(d).imageTypeName]), row(d, |prev|)], prev, next);
  }

  lemma SnocAfter<T>(before: seq<T>, done: seq<T>, more: seq<T>, prev: seq<T>, next: seq<T>)
    requires prev == before + done && next == prev + more
    ensures next == before + (done + more)
  {
  }

  function Repeat(t: Table, n: nat): (ts: seq<Table>)
    ensures |ts| == n && forall i :: 0 <= i < n ==> ts[i] == t
  {
    seq(n, _ => t)
  }

  lemma RepeatSnoc(t: Table, n: nat)
    ensures Repeat(t, n) + [t] == Repeat(t, n + 1)
  {
    assert forall i :: 0 <= i <= n ==> (Repeat(t, n) + [t])[i] == t;
  }

  /** The tables create_model fills, in the order it fills them: image
      types, categories, contact types, listing types, tags, custom field
      types, custom fields, contacts, agencies, intents, profiles and then
      listings, each dependency before its dependents. */
  function CreationOrder(m: ModelData): seq<Table> {
    Repeat(ImageTypeTable, |m.imageTypes|) + Repeat(CategoryTable, |m.categories|)
    + Repeat(ContactTypeTable, |m.contactTypes|) + Repeat(ListingTypeTable, |m.listingTypes|)
    + Repeat(TagTable, |m.tags|) + Repeat(CustomFieldTypeTable, |m.customFieldTypes|)
    + Repeat(CustomFieldTable, |m.customFields|) + Repeat(ContactTable, |m.contacts|)
    + Repeat(AgencyTable, |m.agencies|) + Repeat(IntentTable, |m.intents|)
    + Repeat(ProfileTable, |m.profiles|) + Repeat(ListingTable, |m.listings|)
  }

  lemma AppendAssoc<T>(a: seq<T>, b: seq<T>, c: seq<T>)
    ensures (a + b) + c == a + (b + c)
  {
  }

  /** When every key is registered, linking stops at none of them. */
  lemma AllLinked(keys: seq<Json>, registry: map<Json, nat>)
    requires forall j :: 0 <= j < |keys| ==> keys[j] in registry
    ensures Profiles.FirstMissing(keys, registry.Keys) == |keys| && keys[..|keys|] == keys
  {
  }

  /** The first activity whose author is unknown decides the failure. */
  lemma {:induction false} ActivityCallsFailAt(activities: seq<ListingActivityData>, profiles: map<Json, nat>,
                                               listing: nat, i: nat)
    requires i < |activities|
    requires forall j :: 0 <= j < i ==> activities[j].authorUsername in profiles
    requires activities[i].authorUsername !in profiles
    ensures ActivityCalls(activities, profiles, listing) == Err(NotFound("Profile", "username", activities[i].authorUsername))
  {
    var n := |activities|;
    if i < n - 1 {
      ActivityCallsFailAt(activities[..n - 1], profiles, listing, i);
    } else {
      assert ActivityCalls(activities[..n - 1], profiles, listing).Ok?;
    }
  }

  /** The dictionaries of the generator a listing is resolved against. */
  datatype Registries = Registries(
    agencies: map<Json, nat>, listingTypes: map<Json, nat>, imageTypes: map<Json, nat>,
    categories: map<Json, nat>, contacts: map<Json, nat>, customFields: map<Json, nat>,
    intents: map<Json, nat>, profiles: map<Json, nat>, tags: map<Json, nat>)

  /** Every key a listing names is registered and every image it saves
      has a registered type and a text file name. */
  predicate ListingResolves(reg: Registries, d: ListingData) {
    && Scalar(d, "agency_title") in reg.agencies
    && Scalar(d, "listing_type_title") in reg.listingTypes
    && IconsResolve(d, reg.imageTypes)
    && RelatedResolve(reg, d)
    && DetailsResolve(reg, d)
  }

  /** Every category, contact, custom field, intent, owner and tag the
      listing names is registered. */
  predicate RelatedResolve(reg: Registries, d: ListingData) {
    && AllIn(d.categoryTitles, reg.categories)
    && AllIn(d.contactEmails, reg.contacts)
    && (forall j :: 0 <= j < |d.customFieldValues| ==> d.customFieldValues[j].customFieldLabel in reg.customFields)
    && AllIn(d.intentActions, reg.intents)
    && AllIn(d.ownerUsernames, reg.profiles)
    && AllIn(d.tagNames, reg.tags)
  }

  /** Every screenshot image resolves and every activity author is
      registered. */
  predicate DetailsResolve(reg: Registries, d: ListingData) {
    && ScreenshotsResolve(d.screenshots, reg.imageTypes)
    && (forall j :: 0 <= j < |d.activities| ==> d.activities[j].authorUsername in reg.profiles)
  }

  /** The links a listing gets when every key it names is registered. */
  function ListingLinks(reg: Registries, d: ListingData, id: nat): set<Link>
  {
    LinksTo(id, "categories", Members(d.categoryTitles), reg.categories)
    + LinksTo(id, "contacts", Members(d.contactEmails), reg.contacts)
    + LinksTo(id, "intents", Members(d.intentActions), reg.intents)
    + LinksTo(id, "owners", Members(d.ownerUsernames), reg.profiles)
    + LinksTo(id, "tags", Members(d.tagNames), reg.tags)
  }

  /** The four icons and then the listing itself, at `id`. */
  function ListingHeadRows(reg: Registries, d: ListingData, id: nat): seq<Row>
    requires Scalar(d, "agency_title") in reg.agencies
    requires Scalar(d, "listing_type_title") in reg.listingTypes
    requires IconsResolve(d, reg.imageTypes) && id >= 4
  {
    IconRows(d, reg.imageTypes)
    + [ListingRow(d, [id - 4, id - 3, id - 2, id - 1], reg.agencies[Scalar(d, "agency_title")],
                  reg.listingTypes[Scalar(d, "listing_type_title")])]
  }

  /** What a listing saves after itself: its custom field values, then its
      screenshots, then its document links. */
  /** The rows saved after the listing row, in the two steps that save
      them, are `ListingTailRows`. */
  lemma TailRowsAppend(reg: Registries, d: ListingData, id: nat, before: seq<Row>, attached: seq<Row>, after: seq<Row>)
    requires forall j :: 0 <= j < |d.customFieldValues| ==> d.customFieldValues[j].customFieldLabel in reg.customFields
    requires ScreenshotsResolve(d.screenshots, reg.imageTypes)
    requires |before| == id + 1
    requires attached == before + CustomFieldValueRows(d.customFieldValues, reg.customFields, id)
    requires after == attached + (ScreenshotRows(d.screenshots, reg.imageTypes, |attached|, id) + DocUrlRows(d.docUrls, id))
    ensures after == before + ListingTailRows(reg, d, id)
  {
    var values := CustomFieldValueRows(d.customFieldValues, reg.customFields, id);
    var rest := ScreenshotRows(d.screenshots, reg.imageTypes, |attached|, id) + DocUrlRows(d.docUrls, id);
    assert |attached| == id + 1 + |d.customFieldValues|;
    assert ListingTailRows(reg, d, id) == values + rest;
    AppendAssoc(before, values, rest);
  }

  function ListingTailRows(reg: Registries, d: ListingData, id: nat): seq<Row>
    requires forall j :: 0 <= j < |d.customFieldValues| ==> d.customFieldValues[j].customFieldLabel in reg.customFields
    requires ScreenshotsResolve(d.screenshots, reg.imageTypes)
  {
    CustomFieldValueRows(d.customFieldValues, reg.customFields, id)
    + (ScreenshotRows(d.screenshots, reg.imageTypes, id + 1 + |d.customFieldValues|, id)
       + DocUrlRows(d.docUrls, id))
  }

  /** The rows a listing saves when everything it names resolves: its four
      icons, itself (at `id`), and then its tail. */
  function ListingRows(reg: Registries, d: ListingData, id: nat): seq<Row>
    requires ListingResolves(reg, d) && id >= 4
  {
    ListingHeadRows(reg, d, id) + ListingTailRows(reg, d, id)
  }

  class Generator {
    const defaultImagePath: string
    /** `json.dumps`, a library call. */
    const dumps: Json -> string
    const directory: Profiles.Directory

    var agenciesByTitle: map<Json, nat>
    var categoriesByTitle: map<Json, nat>
    var contactTypesByName: map<Json, nat>
    var contactsByEmail: map<Json, nat>
    var customFieldTypesByName: map<Json, nat>
    var customFieldsByLabel: map<Json, nat>
    var imageTypesByName: map<Json, nat>
    var intentsByAction: map<Json, nat>
    var listingTypesByTitle: map<Json, nat>
    /** Username to the position of the profile in the directory. */
    var profilesByUsername: map<Json, nat>
    var tagsByName: map<Json, nat>

    var rows: seq<Row>
    var links: set<Link>
    var workflowCalls: seq<WorkflowCall>
    /** The table of each entity create_model made, in order. */
    ghost var created: seq<Table>

    constructor (defaultImagePath: string, dumps: Json -> string, directory: Profiles.Directory)
      ensures this.defaultImagePath == defaultImagePath && this.dumps == dumps && this.directory == directory
      ensures agenciesByTitle == map[] && categoriesByTitle == map[] && contactTypesByName == map[]
      ensures contactsByEmail == map[] && customFieldTypesByName == map[] && customFieldsByLabel == map[]
      ensures imageTypesByName == map[] && intentsByAction == map[] && listingTypesByTitle == map[]
      ensures profilesByUsername == map[] && tagsByName == map[]
      ensures rows == [] && links == {} && workflowCalls == [] && created == []
    {
      this.defaultImagePath := defaultImagePath;
      this.dumps := dumps;
      this.directory := directory;
      agenciesByTitle, categoriesByTitle, contactTypesByName := map[], map[], map[];
      contactsByEmail, customFieldTypesByName, customFieldsByLabel := map[], map[], map[];
      imageTypesByName, intentsByAction, listingTypesByTitle := map[], map[], map[];
      profilesByUsername, tagsByName := map[], map[];
      rows, links, workflowCalls, created := [], {}, [], [];
    }

    /** The dictionaries a listing is resolved against, as one value. */
    function Registry(): Registries
      reads this`agenciesByTitle, this`listingTypesByTitle, this`imageTypesByName, this`categoriesByTitle
      reads this`contactsByEmail, this`customFieldsByLabel, this`intentsByAction, this`profilesByUsername
      reads this`tagsByName
    {
      Registries(agenciesByTitle, listingTypesByTitle, imageTypesByName, categoriesByTitle, contactsByEmail,
                 customFieldsByLabel, intentsByAction, profilesByUsername, tagsByName)
    }

    /** create_model: each kind of entity in its own loop, every
        dependency before its dependents; the first entity that fails stops
        it, and the entities before it stay created. */
    method CreateModel(m: ModelData) returns (r: Result<(), Exception>)
      modifies this`rows, this`links, this`workflowCalls, this`created
      modifies this`agenciesByTitle, this`categoriesByTitle, this`contactTypesByName, this`contactsByEmail
      modifies this`customFieldTypesByName, this`customFieldsByLabel, this`imageTypesByName
      modifies this`intentsByAction, this`listingTypesByTitle, this`profilesByUsername, this`tagsByName
      modifies directory`agencies, directory`users, directory`profiles
      ensures r.Ok? ==> created == old(created) + CreationOrder(m)
    {
      ghost var order: seq<Table> := [];
      CreateImageTypes(m.imageTypes);
      order := Repeat(ImageTypeTable, |m.imageTypes|);
      CreateCategories(m.categories);
      AppendAssoc(old(created), order, Repeat(CategoryTable, |m.categories|));
      order := order + Repeat(CategoryTable, |m.categories|);
      CreateContactTypes(m.contactTypes);
      AppendAssoc(old(created), order, Repeat(ContactTypeTable, |m.contactTypes|));
      order := order + Repeat(ContactTypeTable, |m.contactTypes|);
      CreateListingTypes(m.listingTypes);
      AppendAssoc(old(created), order, Repeat(ListingTypeTable, |m.listingTypes|));
      order := order + Repeat(ListingTypeTable, |m.listingTypes|);
      CreateTags(m.tags);
      AppendAssoc(old(created), order, Repeat(TagTable, |m.tags|));
      order := order + Repeat(TagTable, |m.tags|);
      CreateCustomFieldTypes(m.customFieldTypes);
      AppendAssoc(old(created), order, Repeat(CustomFieldTypeTable, |m.customFieldTypes|));
      order := order + Repeat(CustomFieldTypeTable, |m.customFieldTypes|);
      r := CreateCustomFields(m.customFields);
      if r.Err? { return; }
      AppendAssoc(old(created), order, Repeat(CustomFieldTable, |m.customFields|));
      order := order + Repeat(CustomFieldTable, |m.customFields|);
      r := CreateContacts(m.contacts);
      if r.Err? { return; }
      AppendAssoc(old(created), order, Repeat(ContactTable, |m.contacts|));
      order := order + Repeat(ContactTable, |m.contacts|);
      r := CreateAgencies(m.agencies);
      if r.Err? { return; }
      AppendAssoc(old(created), order, Repeat(AgencyTable, |m.agencies|));
      order := order + Repeat(AgencyTable, |m.agencies|);
      r := CreateIntents(m.intents);
      if r.Err? { return; }
      AppendAssoc(old(created), order, Repeat(IntentTable, |m.intents|));
      order := order + Repeat(IntentTable, |m.intents|);
      r := CreateProfiles(m.profiles);
      if r.Err? { return; }
      AppendAssoc(old(created), order, Repeat(ProfileTable, |m.profiles|));
      order := order + Repeat(ProfileTable, |m.profiles|);
      r := CreateListings(m.listings);
      if r.Err? { return; }
      AppendAssoc(old(created), order, Repeat(ListingTable, |m.listings|));
    }

    /** One image type per entry, in order, each saved at the next row and
        filed under its name; a later entry with the same name takes
        the registry entry over. */
    method CreateImageTypes(ds: seq<ImageTypeData>)
      modifies this`rows, this`imageTypesByName, this`created
      ensures created == old(created) + Repeat(ImageTypeTable, |ds|)
      ensures forall j :: 0 <= j < |ds| ==> ds[j].name in imageTypesByName
      ensures rows == old(rows) + RowsOf(ds, ImageTypeRow)
      ensures imageTypesByName == Filed(old(imageTypesByName), KeysOf(ds, (d: ImageTypeData) => d.name), |old(rows)|, 1)
    {
      var i := 0;
      while i < |ds|
        invariant i <= |ds|
        invariant created == old(created) + Repeat(ImageTypeTable, i)
        invariant rows == old(rows) + RowsOf(ds[..i], ImageTypeRow)
        invariant imageTypesByName == Filed(old(imageTypesByName), KeysOf(ds[..i], (d: ImageTypeData) => d.name), |old(rows)|, 1)
      {
        ghost var prevRows, prevReg := rows, imageTypesByName;
        var _ := CreateImageType(ds[i]);
        RepeatSnoc(ImageTypeTable, i);
        RowsGrow(old(rows), ds, i, ImageTypeRow, prevRows, rows);
        FiledGrow(old(imageTypesByName), ds, i, (d: ImageTypeData) => d.name, |old(rows)|, 1, prevReg, imageTypesByName);
        i := i + 1;
      }
      assert ds[..i] == ds;
      FiledLast(old(imageTypesByName), KeysOf(ds, (d: ImageTypeData) => d.name), |old(rows)|, 1);
    }

    /** One category per entry, in order, each saved at the next row and
        filed under its title; a later entry with the same title takes
        the registry entry over. */
    method CreateCategories(ds: seq<CategoryData>)
      modifies this`rows, this`categoriesByTitle, this`created
      ensures created == old(created) + Repeat(CategoryTable, |ds|)
      ensures forall j :: 0 <= j < |ds| ==> ds[j].title in categoriesByTitle
      ensures rows == old(rows) + RowsOf(ds, CategoryRow)
      ensures categoriesByTitle == Filed(old(categoriesByTitle), KeysOf(ds, (d: CategoryData) => d.title), |old(rows)|, 1)
    {
      var i := 0;
      while i < |ds|
        invariant i <= |ds|
        invariant created == old(created) + Repeat(CategoryTable, i)
        invariant rows == old(rows) + RowsOf(ds[..i], CategoryRow)
        invariant categoriesByTitle == Filed(old(categoriesByTitle), KeysOf(ds[..i], (d: CategoryData) => d.title), |old(rows)|, 1)
      {
        ghost var prevRows, prevReg := rows, categoriesByTitle;
        var _ := CreateCategory(ds[i]);
        RepeatSnoc(CategoryTable, i);
        RowsGrow(old(rows), ds, i, CategoryRow, prevRows, rows);
        FiledGrow(old(categoriesByTitle), ds, i, (d: CategoryData) => d.title, |old(rows)|, 1, prevReg, categoriesByTitle);
        i := i + 1;
      }
      assert ds[..i] == ds;
      FiledLast(old(categoriesByTitle), KeysOf(ds, (d: CategoryData) => d.title), |old(rows)|, 1);
    }

    /** One contact type per entry, in order, each saved at the next row and
        filed under its name; a later entry with the same name takes
        the registry entry over. */
    method CreateContactTypes(ds: seq<ContactTypeData>)
      modifies this`rows, this`contactTypesByName, this`created
      ensures created == old(created) + Repeat(ContactTypeTable, |ds|)
      ensures forall j :: 0 <= j < |ds| ==> ds[j].name in contactTypesByName
      ensures rows == old(rows) + RowsOf(ds, ContactTypeRow)
      ensures contactTypesByName == Filed(old(contactTypesByName), KeysOf(ds, (d: ContactTypeData) => d.name), |old(rows)|, 1)
    {
      var i := 0;
      while i < |ds|
        invariant i <= |ds|
        invariant created == old(created) + Repeat(ContactTypeTable, i)
        invariant rows == old(rows) + RowsOf(ds[..i], ContactTypeRow)
        invariant contactTypesByName == Filed(old(contactTypesByName), KeysOf(ds[..i], (d: ContactTypeData) => d.name), |old(rows)|, 1)
      {
        ghost var prevRows, prevReg := rows, contactTypesByName;
        var _ := CreateContactType(ds[i]);
        RepeatSnoc(ContactTypeTable, i);
        RowsGrow(old(rows), ds, i, ContactTypeRow, prevRows, rows);
        FiledGrow(old(contactTypesByName), ds, i, (d: ContactTypeData) => d.name, |old(rows)|, 1, prevReg, contactTypesByName);
        i := i + 1;
      }
      assert ds[..i] == ds;
      FiledLast(old(contactTypesByName), KeysOf(ds, (d: ContactTypeData) => d.name), |old(rows)|, 1);
    }

    /** One listing type per entry, in order, each saved at the next row and
        filed under its title; a later entry with the same title takes
        the registry entry over. */
    method CreateListingTypes(ds: seq<ListingTypeData>)
      modifies this`rows, this`listingTypesByTitle, this`created
      ensures created == old(created) + Repeat(ListingTypeTable, |ds|)
      ensures forall j :: 0 <= j < |ds| ==> ds[j].title in listingTypesByTitle
      ensures rows == old(rows) + RowsOf(ds, ListingTypeRow)
      ensures listingTypesByTitle == Filed(old(listingTypesByTitle), KeysOf(ds, (d: ListingTypeData) => d.title), |old(rows)|, 1)
    {
      var i := 0;
      while i < |ds|
        invariant i <= |ds|
        invariant created == old(created) + Repeat(ListingTypeTable, i)
        invariant rows == old(rows) + RowsOf(ds[..i], ListingTypeRow)
        invariant listingTypesByTitle == Filed(old(listingTypesByTitle), KeysOf(ds[..i], (d: ListingTypeData) => d.title), |old(rows)|, 1)
      {
        ghost var prevRows, prevReg := rows, listingTypesByTitle;
        var _ := CreateListingType(ds[i]);
        RepeatSnoc(ListingTypeTable, i);
        RowsGrow(old(rows), ds, i, ListingTypeRow, prevRows, rows);
        FiledGrow(old(listingTypesByTitle), ds, i, (d: ListingTypeData) => d.title, |old(rows)|, 1, prevReg, listingTypesByTitle);
        i := i + 1;
      }
      assert ds[..i] == ds;
      FiledLast(old(listingTypesByTitle), KeysOf(ds, (d: ListingTypeData) => d.title), |old(rows)|, 1);
    }

    /** One tag per entry, in order, each saved at the next row and
        filed under its name; a later entry with the same name takes
        the registry entry over. */
    method CreateTags(ds: seq<TagData>)
      modifies this`rows, this`tagsByName, this`created
      ensures created == old(created) + Repeat(TagTable, |ds|)
      ensures forall j :: 0 <= j < |ds| ==> ds[j].name in tagsByName
      ensures rows == old(rows) + RowsOf(ds, TagRow)
      ensures tagsByName == Filed(old(tagsByName), KeysOf(ds, (d: TagData) => d.name), |old(rows)|, 1)
    {
      var i := 0;
      while i < |ds|
        invariant i <= |ds|
        invariant created == old(created) + Repeat(TagTable, i)
        invariant rows == old(rows) + RowsOf(ds[..i], TagRow)
        invariant tagsByName == Filed(old(tagsByName), KeysOf(ds[..i], (d: TagData) => d.name), |old(rows)|, 1)
      {
        ghost var prevRows, prevReg := rows, tagsByName;
        var _ := CreateTag(ds[i]);
        RepeatSnoc(TagTable, i);
        RowsGrow(old(rows), ds, i, TagRow, prevRows, rows);
        FiledGrow(old(tagsByName), ds, i, (d: TagData) => d.name, |old(rows)|, 1, prevReg, tagsByName);
        i := i + 1;
      }
      assert ds[..i] == ds;
      FiledLast(old(tagsByName), KeysOf(ds, (d: TagData) => d.name), |old(rows)|, 1);
    }

    /** One custom field type per entry, in order, each saved at the next row and
        filed under its name; a later entry with the same name takes
        the registry entry over. */
    method CreateCustomFieldTypes(ds: seq<CustomFieldTypeData>)
      modifies this`rows, this`customFieldTypesByName, this`created
      ensures created == old(created) + Repeat(CustomFieldTypeTable, |ds|)
      ensures forall j :: 0 <= j < |ds| ==> ds[j].name in customFieldTypesByName
      ensures rows == old(rows) + RowsOf(ds, CustomFieldTypeRow)
      ensures customFieldTypesByName == Filed(old(customFieldTypesByName), KeysOf(ds, (d: CustomFieldTypeData) => d.name), |old(rows)|, 1)
    {
      var i := 0;
      while i < |ds|
        invariant i <= |ds|
        invariant created == old(created) + Repeat(CustomFieldTypeTable, i)
        invariant rows == old(rows) + RowsOf(ds[..i], CustomFieldTypeRow)
        invariant customFieldTypesByName == Filed(old(customFieldTypesByName), KeysOf(ds[..i], (d: CustomFieldTypeData) => d.name), |old(rows)|, 1)
      {
        ghost var prevRows, prevReg := rows, customFieldTypesByName;
        var _ := CreateCustomFieldType(ds[i]);
        RepeatSnoc(CustomFieldTypeTable, i);
        RowsGrow(old(rows), ds, i, CustomFieldTypeRow, prevRows, rows);
        FiledGrow(old(customFieldTypesByName), ds, i, (d: CustomFieldTypeData) => d.name, |old(rows)|, 1, prevReg, customFieldTypesByName);
        i := i + 1;
      }
      assert ds[..i] == ds;
      FiledLast(old(customFieldTypesByName), KeysOf(ds, (d: CustomFieldTypeData) => d.name), |old(rows)|, 1);
    }

    /** One custom field per entry, in order, each saved at the next row with its
        type resolved and filed under its label; a later entry with the
        same label takes the registry entry over. The first entry whose
        type is not registered fails its assertion, and the entries
        before it stay saved. */
    method CreateCustomFields(ds: seq<CustomFieldData>) returns (r: Result<(), Exception>)
      modifies this`rows, this`customFieldsByLabel, this`created
      ensures r.Ok? <==> forall j :: 0 <= j < |ds| ==> ds[j].typeName in customFieldTypesByName
      ensures r.Ok? ==> created == old(created) + Repeat(CustomFieldTable, |ds|)
      ensures r.Ok? ==> forall j :: 0 <= j < |ds| ==> ds[j].fieldLabel in customFieldsByLabel
      ensures r.Ok? ==> CustomFieldsUpTo(ds, |ds|, old(rows), old(customFieldsByLabel))
      ensures r.Err? ==> exists k :: 0 <= k < |ds| && ds[k].typeName !in customFieldTypesByName
                           && r == Err(NotFound("CustomFieldType", "name", ds[k].typeName))
                           && CustomFieldsUpTo(ds, k, old(rows), old(customFieldsByLabel))
    {
      var i := 0;
      while i < |ds|
        invariant i <= |ds|
        invariant created == old(created) + Repeat(CustomFieldTable, i)
        invariant CustomFieldsUpTo(ds, i, old(rows), old(customFieldsByLabel))
      {
        var step := AddCustomField(ds, i, old(rows), old(customFieldsByLabel));
        if step.Err? {
          return Err(step.error);
        }
        RepeatSnoc(CustomFieldTable, i);
        i := i + 1;
      }
      assert ds[..i] == ds;
      FiledLast(old(customFieldsByLabel), KeysOf(ds, (d: CustomFieldData) => d.fieldLabel), |old(rows)|, 1);
      return Ok(());
    }

    /** The first `i` custom fields of a batch have their types registered, their
        rows saved after `rows0` and their fieldLabels filed. */
    ghost predicate CustomFieldsUpTo(ds: seq<CustomFieldData>, i: nat, rows0: seq<Row>, registry0: map<Json, nat>)
      reads this
      requires i <= |ds|
    {
      && (forall j :: 0 <= j < i ==> ds[j].typeName in customFieldTypesByName)
      && rows == rows0 + RefRowsOf(ds[..i], (d: CustomFieldData) => d.typeName, CustomFieldRow, customFieldTypesByName)
      && customFieldsByLabel == Filed(registry0, KeysOf(ds[..i], (d: CustomFieldData) => d.fieldLabel), |rows0|, 1)
    }

    /** The `i`-th custom field of a batch: saved after the ones before it. */
    method AddCustomField(ds: seq<CustomFieldData>, i: nat, ghost rows0: seq<Row>, ghost registry0: map<Json, nat>)
      returns (r: Result<nat, Exception>)
      requires i < |ds| && CustomFieldsUpTo(ds, i, rows0, registry0)
      modifies this`rows, this`customFieldsByLabel, this`created
      ensures r.Ok? <==> ds[i].typeName in customFieldTypesByName
      ensures r.Err? ==> && r == Err(NotFound("CustomFieldType", "name", ds[i].typeName))
                         && rows == old(rows) && customFieldsByLabel == old(customFieldsByLabel) && created == old(created)
      ensures r.Ok? ==> created == old(created) + [CustomFieldTable] && CustomFieldsUpTo(ds, i + 1, rows0, registry0)
    {
      ghost var prevRows, prevReg := rows, customFieldsByLabel;
      r := CreateCustomField(ds[i]);
      if r.Ok? {
        RefRowsGrow(rows0, ds, i, (d: CustomFieldData) => d.typeName, CustomFieldRow, customFieldTypesByName, prevRows, rows);
        FiledGrow(registry0, ds, i, (d: CustomFieldData) => d.fieldLabel, |rows0|, 1, prevReg, customFieldsByLabel);
      }
    }

    /** One contact per entry, in order, each saved at the next row with its
        contact type resolved and filed under its email; a later entry with the
        same email takes the registry entry over. The first entry whose
        contact type is not registered fails its assertion, and the entries
        before it stay saved. */
    method CreateContacts(ds: seq<ContactData>) returns (r: Result<(), Exception>)
      modifies this`rows, this`contactsByEmail, this`created
      ensures r.Ok? <==> forall j :: 0 <= j < |ds| ==> ds[j].contactTypeName in contactTypesByName
      ensures r.Ok? ==> created == old(created) + Repeat(ContactTable, |ds|)
      ensures r.Ok? ==> forall j :: 0 <= j < |ds| ==> ds[j].email in contactsByEmail
      ensures r.Ok? ==> ContactsUpTo(ds, |ds|, old(rows), old(contactsByEmail))
      ensures r.Err? ==> exists k :: 0 <= k < |ds| && ds[k].contactTypeName !in contactTypesByName
                           && r == Err(NotFound("ContactType", "name", ds[k].contactTypeName))
                           && ContactsUpTo(ds, k, old(rows), old(contactsByEmail))
    {
      var i := 0;
      while i < |ds|
        invariant i <= |ds|
        invariant created == old(created) + Repeat(ContactTable, i)
        invariant ContactsUpTo(ds, i, old(rows), old(contactsByEmail))
      {
        var step := AddContact(ds, i, old(rows), old(contactsByEmail));
        if step.Err? {
          return Err(step.error);
        }
        RepeatSnoc(ContactTable, i);
        i := i + 1;
      }
      assert ds[..i] == ds;
      FiledLast(old(contactsByEmail), KeysOf(ds, (d: ContactData) => d.email), |old(rows)|, 1);
      return Ok(());
    }

    /** The first `i` contacts of a batch have their contact types registered, their
        rows saved after `rows0` and their emails filed. */
    ghost predicate ContactsUpTo(ds: seq<ContactData>, i: nat, rows0: seq<Row>, registry0: map<Json, nat>)
      reads this
      requires i <= |ds|
    {
      && (forall j :: 0 <= j < i ==> ds[j].contactTypeName in contactTypesByName)
      && rows == rows0 + RefRowsOf(ds[..i], (d: ContactData) => d.contactTypeName, ContactRow, contactTypesByName)
      && contactsByEmail == Filed(registry0, KeysOf(ds[..i], (d: ContactData) => d.email), |rows0|, 1)
    }

    /** The `i`-th contact of a batch: saved after the ones before it. */
    method AddContact(ds: seq<ContactData>, i: nat, ghost rows0: seq<Row>, ghost registry0: map<Json, nat>)
      returns (r: Result<nat, Exception>)
      requires i < |ds| && ContactsUpTo(ds, i, rows0, registry0)
      modifies this`rows, this`contactsByEmail, this`created
      ensures r.Ok? <==> ds[i].contactTypeName in contactTypesByName
      ensures r.Err? ==> && r == Err(NotFound("ContactType", "name", ds[i].contactTypeName))
                         && rows == old(rows) && contactsByEmail == old(contactsByEmail) && created == old(created)
      ensures r.Ok? ==> created == old(created) + [ContactTable] && ContactsUpTo(ds, i + 1, rows0, registry0)
    {
      ghost var prevRows, prevReg := rows, contactsByEmail;
      r := CreateContact(ds[i]);
      if r.Ok? {
        RefRowsGrow(rows0, ds, i, (d: ContactData) => d.contactTypeName, ContactRow, contactTypesByName, prevRows, rows);
        FiledGrow(registry0, ds, i, (d: ContactData) => d.email, |rows0|, 1, prevReg, contactsByEmail);
      }
    }

    /** One agency per entry, in order: its icon image, then the agency
        itself, filed under its title here and in the directory; a later entry with the same
        title takes the registry entry over. The first entry whose icon
        cannot be saved fails, and the entries before it stay saved. */
    method CreateAgencies(ds: seq<AgencyData>) returns (r: Result<(), Exception>)
      modifies this`rows, this`agenciesByTitle, this`created, directory`agencies
      ensures r.Ok? <==> forall j :: 0 <= j < |ds| ==> ImageResolves(ds[j].icon, imageTypesByName)
      ensures r.Ok? ==> created == old(created) + Repeat(AgencyTable, |ds|)
      ensures r.Ok? ==> forall j :: 0 <= j < |ds| ==> ds[j].title in agenciesByTitle
      ensures r.Ok? ==> AgenciesSaved(ds, |ds|, imageTypesByName, old(rows), old(agenciesByTitle), old(directory.agencies),
                                      rows, agenciesByTitle, directory.agencies)
      ensures r.Err? ==> exists k :: 0 <= k < |ds| && !ImageResolves(ds[k].icon, imageTypesByName)
                           && AgenciesSaved(ds, k, imageTypesByName, old(rows), old(agenciesByTitle), old(directory.agencies),
                                            rows, agenciesByTitle, directory.agencies)
    {
      var i := 0;
      while i < |ds|
        invariant i <= |ds|
        invariant created == old(created) + Repeat(AgencyTable, i)
        invariant AgenciesUpTo(ds, i, old(rows), old(agenciesByTitle), old(directory.agencies))
      {
        var step := AddAgency(ds, i, old(rows), old(agenciesByTitle), old(directory.agencies));
        if step.Err? {
          return Err(step.error);
        }
        RepeatSnoc(AgencyTable, i);
        i := i + 1;
      }
      assert ds[..i] == ds;
      FiledLast(old(agenciesByTitle), KeysOf(ds, (d: AgencyData) => d.title), |old(rows)| + 1, 2);
      return Ok(());
    }

    /** The first `i` agencies of a batch were saved after `rows0`,
        `titles0` and `agencies0`, as `AgenciesSaved` states. */
    ghost predicate AgenciesUpTo(ds: seq<AgencyData>, i: nat, rows0: seq<Row>, titles0: map<Json, nat>, agencies0: map<string, nat>)
      reads this, directory
      requires i <= |ds|
    {
      AgenciesSaved(ds, i, imageTypesByName, rows0, titles0, agencies0, rows, agenciesByTitle, directory.agencies)
    }

    /** The `i`-th agency of a batch: saved after the ones before it. */
    method AddAgency(ds: seq<AgencyData>, i: nat, ghost rows0: seq<Row>, ghost titles0: map<Json, nat>, ghost agencies0: map<string, nat>)
      returns (r: Result<nat, Exception>)
      requires i < |ds| && AgenciesUpTo(ds, i, rows0, titles0, agencies0)
      modifies this`rows, this`agenciesByTitle, this`created, directory`agencies
      ensures r.Ok? <==> ImageResolves(ds[i].icon, imageTypesByName)
      ensures r.Err? ==> rows == old(rows) && agenciesByTitle == old(agenciesByTitle)
                         && created == old(created) && directory.agencies == old(directory.agencies)
      ensures r.Ok? ==> created == old(created) + [AgencyTable] && AgenciesUpTo(ds, i + 1, rows0, titles0, agencies0)
    {
      ghost var prevRows, prevReg, prevDir := rows, agenciesByTitle, directory.agencies;
      r := CreateAgency(ds[i]);
      if r.Ok? {
        AgenciesSavedStep(ds, i, imageTypesByName, rows0, titles0, agencies0, prevRows, prevReg, prevDir,
                          rows, agenciesByTitle, directory.agencies);
      }
    }

    /** One intent per entry, in order: its icon image, then the intent
        itself, filed under its action; a later entry with the same
        action takes the registry entry over. The first entry whose icon
        cannot be saved fails, and the entries before it stay saved. */
    method CreateIntents(ds: seq<IntentData>) returns (r: Result<(), Exception>)
      modifies this`rows, this`intentsByAction, this`created
      ensures r.Ok? <==> forall j :: 0 <= j < |ds| ==> ImageResolves(ds[j].icon, imageTypesByName)
      ensures r.Ok? ==> created == old(created) + Repeat(IntentTable, |ds|)
      ensures r.Ok? ==> forall j :: 0 <= j < |ds| ==> ds[j].action in intentsByAction
      ensures r.Ok? ==> IntentsUpTo(ds, |ds|, old(rows), old(intentsByAction))
      ensures r.Err? ==> exists k :: 0 <= k < |ds| && !ImageResolves(ds[k].icon, imageTypesByName)
                           && IntentsUpTo(ds, k, old(rows), old(intentsByAction))
    {
      var i := 0;
      while i < |ds|
        invariant i <= |ds|
        invariant created == old(created) + Repeat(IntentTable, i)
        invariant IntentsUpTo(ds, i, old(rows), old(intentsByAction))
      {
        var step := AddIntent(ds, i, old(rows), old(intentsByAction));
        if step.Err? {
          return Err(step.error);
        }
        RepeatSnoc(IntentTable, i);
        i := i + 1;
      }
      assert ds[..i] == ds;
      FiledLast(old(intentsByAction), KeysOf(ds, (d: IntentData) => d.action), |old(rows)| + 1, 2);
      return Ok(());
    }

    /** The first `i` intents of a batch have their icons resolved, their
        rows saved after `rows0` and their actions filed. */
    ghost predicate IntentsUpTo(ds: seq<IntentData>, i: nat, rows0: seq<Row>, actions0: map<Json, nat>)
      reads this
      requires i <= |ds|
    {
      && (forall j :: 0 <= j < i ==> ImageResolves(ds[j].icon, imageTypesByName))
      && rows == rows0 + IconRowsOf(ds[..i], (d: IntentData) => d.icon, IntentRow, imageTypesByName, |rows0|)
      && intentsByAction == Filed(actions0, KeysOf(ds[..i], (d: IntentData) => d.action), |rows0| + 1, 2)
    }

    /** The `i`-th intent of a batch: saved after the ones before it. */
    method AddIntent(ds: seq<IntentData>, i: nat, ghost rows0: seq<Row>, ghost actions0: map<Json, nat>)
      returns (r: Result<nat, Exception>)
      requires i < |ds| && IntentsUpTo(ds, i, rows0, actions0)
      modifies this`rows, this`intentsByAction, this`created
      ensures r.Ok? <==> ImageResolves(ds[i].icon, imageTypesByName)
      ensures r.Err? ==> rows == old(rows) && intentsByAction == old(intentsByAction) && created == old(created)
      ensures r.Ok? ==> created == old(created) + [IntentTable] && IntentsUpTo(ds, i + 1, rows0, actions0)
    {
      ghost var prevRows, prevReg := rows, intentsByAction;
      r := CreateIntent(ds[i]);
      if r.Ok? {
        assert ds[..i + 1] == ds[..i] + [ds[i]];
        IconRowsGrow(rows0, ds[..i], ds[i], (d: IntentData) => d.icon, IntentRow, imageTypesByName, prevRows, rows);
        FiledGrow(actions0, ds, i, (d: IntentData) => d.action, |rows0| + 1, 2, prevReg, intentsByAction);
      }
    }

    /** One user and profile per entry, in order, each profile filed under
        its username; a later entry with the same username takes the
        registry entry over. The first entry `create_user` does not accept
        fails; the entries before it stay saved, and so does the user it
        created before its lookup failed. */
    method CreateProfiles(ds: seq<ProfileData>) returns (r: Result<(), Exception>)
      modifies this`rows, this`profilesByUsername, this`created, directory`users, directory`profiles
      ensures r.Ok? <==> forall j :: 0 <= j < |ds| ==> Accepted(ds[j])
      ensures r.Ok? ==> created == old(created) + Repeat(ProfileTable, |ds|)
      ensures r.Ok? ==> forall j :: 0 <= j < |ds| ==> ds[j].username in profilesByUsername
      ensures r.Ok? ==> ProfilesUpTo(ds, |ds|, old(directory.users), old(directory.profiles), old(profilesByUsername))
      ensures r.Err? ==> exists k :: 0 <= k < |ds| && !Accepted(ds[k]) && (forall j :: 0 <= j < k ==> Accepted(ds[j]))
                           && profilesByUsername == Filed(old(profilesByUsername), KeysOf(ds[..k], (d: ProfileData) => d.username), |old(directory.profiles)|, 1)
                           && old(directory.users) <= directory.users && old(directory.profiles) <= directory.profiles
                           && |directory.users| == |old(directory.users)| + k + (if Typed(ds[k]) then 1 else 0)
                           && |old(directory.profiles)| + k <= |directory.profiles| <= |old(directory.profiles)| + k + 1
    {
      var i := 0;
      while i < |ds|
        invariant i <= |ds|
        invariant created == old(created) + Repeat(ProfileTable, i)
        invariant ProfilesUpTo(ds, i, old(directory.users), old(directory.profiles), old(profilesByUsername))
      {
        ghost var usersBefore, profilesBefore := directory.users, directory.profiles;
        var step := AddProfile(ds, i, old(directory.users), old(directory.profiles), old(profilesByUsername));
        if step.Err? {
          assert ds[..i][..i] == ds[..i];
          assert old(directory.users) <= usersBefore <= directory.users;
          assert old(directory.profiles) <= profilesBefore <= directory.profiles;
          return Err(step.error);
        }
        RepeatSnoc(ProfileTable, i);
        i := i + 1;
      }
      assert ds[..i] == ds;
      FiledLast(old(profilesByUsername), KeysOf(ds, (d: ProfileData) => d.username), |old(directory.profiles)|, 1);
      return Ok(());
    }

    /** The username and the arguments `create_user` receives are well typed. */
    predicate Typed(d: ProfileData) {
      AsText(d.username).Ok? && UserArgs(d, dumps(AccessControlJson(d.accessControl))).Ok?
    }

    /** `create_user` saves the profile for `d`. */
    predicate Accepted(d: ProfileData)
      reads directory`agencies
    {
      ProfileAccepted(d, dumps(AccessControlJson(d.accessControl)), directory.groups, directory.agencies)
    }

    /** The first `i` entries of a batch were saved after `users0`,
        `profiles0` and `registry0`, as `ProfilesSaved` states. */
    ghost predicate ProfilesUpTo(ds: seq<ProfileData>, i: nat, users0: seq<Profiles.User>, profiles0: seq<Profiles.Profile>,
                                 registry0: map<Json, nat>)
      reads this, directory
      requires i <= |ds|
    {
      ProfilesSaved(ds, i, AcceptedUnder(dumps, directory.groups, directory.agencies), AccessControlUnder(dumps),
                    users0, profiles0, registry0, directory.users, directory.profiles, profilesByUsername)
    }

    /** The `i`-th profile of a batch: saved after the ones before it. */
    method AddProfile(ds: seq<ProfileData>, i: nat, ghost users0: seq<Profiles.User>, ghost profiles0: seq<Profiles.Profile>,
                      ghost registry0: map<Json, nat>) returns (r: Result<nat, Exception>)
      requires i < |ds| && ProfilesUpTo(ds, i, users0, profiles0, registry0)
      modifies this`profilesByUsername, this`created, directory`users, directory`profiles
      ensures r.Ok? <==> Accepted(ds[i])
      ensures r.Ok? ==> created == old(created) + [ProfileTable] && ProfilesUpTo(ds, i + 1, users0, profiles0, registry0)
      ensures r.Err? ==> && created == old(created) && profilesByUsername == old(profilesByUsername)
                         && old(directory.users) <= directory.users && old(directory.profiles) <= directory.profiles
                         && |directory.users| == |old(directory.users)| + (if Typed(ds[i]) then 1 else 0)
                         && |directory.profiles| <= |old(directory.profiles)| + 1
    {
      ghost var prevReg, prevUsers, prevProfiles := profilesByUsername, directory.users, directory.profiles;
      r := CreateProfile(ds[i]);
      if r.Ok? {
        ProfilesSavedStep(ds, i, AcceptedUnder(dumps, directory.groups, directory.agencies), AccessControlUnder(dumps),
                          users0, profiles0, registry0,
                          prevUsers, prevProfiles, prevReg, directory.users, directory.profiles, profilesByUsername);
      }
    }

    method CreateListings(ds: seq<ListingData>) returns (r: Result<(), Exception>)
      modifies this`rows, this`links, this`workflowCalls, this`created
      ensures r.Ok? ==> created == old(created) + Repeat(ListingTable, |ds|)
    {
      var i := 0;
      while i < |ds|
        invariant i <= |ds|
        invariant created == old(created) + Repeat(ListingTable, i)
      {
        var step := CreateListing(ds[i]);
        if step.Err? { return Err(step.error); }
        RepeatSnoc(ListingTable, i);
        i := i + 1;
      }
      return Ok(());
    }

    method CreateImageType(d: ImageTypeData) returns (id: nat)
      modifies this`rows, this`imageTypesByName, this`created
      ensures id == |old(rows)| && rows == old(rows) + [ImageTypeRow(d)]
      ensures rows[id].minHeight == d.minWidth && rows[id].maxHeight == d.maxWidth
      ensures imageTypesByName == old(imageTypesByName)[d.name := id]
      ensures created == old(created) + [ImageTypeTable]
    {
      id := |rows|;
      rows := rows + [ImageTypeRow(d)];
      imageTypesByName := imageTypesByName[d.name := id];
      created := created + [ImageTypeTable];
    }

    method CreateCategory(d: CategoryData) returns (id: nat)
      modifies this`rows, this`categoriesByTitle, this`created
      ensures id == |old(rows)| && rows == old(rows) + [CategoryRow(d)]
      ensures categoriesByTitle == old(categoriesByTitle)[d.title := id]
      ensures created == old(created) + [CategoryTable]
    {
      id := |rows|;
      rows := rows + [CategoryRow(d)];
      categoriesByTitle := categoriesByTitle[d.title := id];
      created := created + [CategoryTable];
    }

    method CreateContactType(d: ContactTypeData) returns (id: nat)
      modifies this`rows, this`contactTypesByName, this`created
      ensures id == |old(rows)| && rows == old(rows) + [ContactTypeRow(d)]
      ensures contactTypesByName == old(contactTypesByName)[d.name := id]
      ensures created == old(created) + [ContactTypeTable]
    {
      id := |rows|;
      rows := rows + [ContactTypeRow(d)];
      contactTypesByName := contactTypesByName[d.name := id];
      created := created + [ContactTypeTable];
    }

    method CreateListingType(d: ListingTypeData) returns (id: nat)
      modifies this`rows, this`listingTypesByTitle, this`created
      ensures id == |old(rows)| && rows == old(rows) + [ListingTypeRow(d)]
      ensures listingTypesByTitle == old(listingTypesByTitle)[d.title := id]
      ensures created == old(created) + [ListingTypeTable]
    {
      id := |rows|;
      rows := rows + [ListingTypeRow(d)];
      listingTypesByTitle := listingTypesByTitle[d.title := id];
      created := created + [ListingTypeTable];
    }

    method CreateTag(d: TagData) returns (id: nat)
      modifies this`rows, this`tagsByName, this`created
      ensures id == |old(rows)| && rows == old(rows) + [TagRow(d)]
      ensures tagsByName == old(tagsByName)[d.name := id]
      ensures created == old(created) + [TagTable]
    {
      id := |rows|;
      rows := rows + [TagRow(d)];
      tagsByName := tagsByName[d.name := id];
      created := created + [TagTable];
    }

    method CreateCustomFieldType(d: CustomFieldTypeData) returns (id: nat)
      modifies this`rows, this`customFieldTypesByName, this`created
      ensures id == |old(rows)| && rows == old(rows) + [CustomFieldTypeRow(d)]
      ensures customFieldTypesByName == old(customFieldTypesByName)[d.name := id]
      ensures created == old(created) + [CustomFieldTypeTable]
    {
      id := |rows|;
      rows := rows + [CustomFieldTypeRow(d)];
      customFieldTypesByName := customFieldTypesByName[d.name := id];
      created := created + [CustomFieldTypeTable];
    }

    /** The field's type must have been registered by name. */
    method CreateCustomField(d: CustomFieldData) returns (r: Result<nat, Exception>)
      modifies this`rows, this`customFieldsByLabel, this`created
      ensures d.typeName !in customFieldTypesByName ==>
                r == Err(NotFound("CustomFieldType", "name", d.typeName)) && rows == old(rows)
                && customFieldsByLabel == old(customFieldsByLabel) && created == old(created)
      ensures d.typeName in customFieldTypesByName ==>
                var id := |old(rows)|;
                && r == Ok(id) && rows == old(rows) + [CustomFieldRow(d, customFieldTypesByName[d.typeName])]
                && customFieldsByLabel == old(customFieldsByLabel)[d.fieldLabel := id]
                && created == old(created) + [CustomFieldTable]
    {
      if d.typeName !in customFieldTypesByName {
        return Err(NotFound("CustomFieldType", "name", d.typeName));
      }
      var id := |rows|;
      rows := rows + [CustomFieldRow(d, customFieldTypesByName[d.typeName])];
      customFieldsByLabel := customFieldsByLabel[d.fieldLabel := id];
      created := created + [CustomFieldTable];
      return Ok(id);
    }

    /** The contact's type must have been registered by name. */
    method CreateContact(d: ContactData) returns (r: Result<nat, Exception>)
      modifies this`rows, this`contactsByEmail, this`created
      ensures d.contactTypeName !in contactTypesByName ==>
                r == Err(NotFound("ContactType", "name", d.contactTypeName)) && rows == old(rows)
                && contactsByEmail == old(contactsByEmail) && created == old(created)
      ensures d.contactTypeName in contactTypesByName ==>
                var id := |old(rows)|;
                && r == Ok(id) && rows == old(rows) + [ContactRow(d, contactTypesByName[d.contactTypeName])]
                && contactsByEmail == old(contactsByEmail)[d.email := id]
                && created == old(created) + [ContactTable]
    {
      if d.contactTypeName !in contactTypesByName {
        return Err(NotFound("ContactType", "name", d.contactTypeName));
      }
      var id := |rows|;
      rows := rows + [ContactRow(d, contactTypesByName[d.contactTypeName])];
      contactsByEmail := contactsByEmail[d.email := id];
      created := created + [ContactTable];
      return Ok(id);
    }

    /** Resolves the image type by name, then saves the image with the
        extension of its file name. Concatenating the image directory with
        a file name that is not text raises TypeError. */
    method CreateImage(d: ImageData) returns (r: Result<nat, Exception>)
      modifies this`rows
      ensures r.Ok? <==> ImageResolves(d, imageTypesByName)
      ensures d.imageTypeName !in imageTypesByName ==>
                r == Err(NotFound("ImageType", "name", d.imageTypeName))
      ensures r.Err? ==> rows == old(rows)
      ensures r.Ok? ==> r.value == |old(rows)|
                        && rows == old(rows) + [ImageRow(d, imageTypesByName[d.imageTypeName])]
    {
      if d.imageTypeName !in imageTypesByName {
        return Err(NotFound("ImageType", "name", d.imageTypeName));
      }
      if !d.filename.JStr? {
        return Err(TypeError("can only concatenate str to str"));
      }
      var id := |rows|;
      rows := rows + [ImageRow(d, imageTypesByName[d.imageTypeName])];
      return Ok(id);
    }

    /** Saves the icon, then the agency, and registers it by title both
        here and in the directory's agency table. */
    method CreateAgency(d: AgencyData) returns (r: Result<nat, Exception>)
      modifies this`rows, this`agenciesByTitle, this`created, directory`agencies
      ensures r.Ok? <==> ImageResolves(d.icon, imageTypesByName)
      ensures r.Err? ==> rows == old(rows) && agenciesByTitle == old(agenciesByTitle)
                         && created == old(created) && directory.agencies == old(directory.agencies)
      ensures r.Ok? ==> var icon := |old(rows)|;
                        && r.value == icon + 1
                        && rows == old(rows) + [ImageRow(d.icon, imageTypesByName[d.icon.imageTypeName]), AgencyRow(d, icon)]
                        && agenciesByTitle == old(agenciesByTitle)[d.title := r.value]
                        && directory.agencies == old(directory.agencies)[KeyText(d.title) := r.value]
                        && created == old(created) + [AgencyTable]
    {
      var icon :- CreateImage(d.icon);
      var id := |rows|;
      rows := rows + [AgencyRow(d, icon)];
      agenciesByTitle := agenciesByTitle[d.title := id];
      directory.agencies := directory.agencies[KeyText(d.title) := id];
      created := created + [AgencyTable];
      return Ok(id);
    }

    method CreateIntent(d: IntentData) returns (r: Result<nat, Exception>)
      modifies this`rows, this`intentsByAction, this`created
      ensures r.Ok? <==> ImageResolves(d.icon, imageTypesByName)
      ensures r.Err? ==> rows == old(rows) && intentsByAction == old(intentsByAction) && created == old(created)
      ensures r.Ok? ==> var icon := |old(rows)|;
                        && r.value == icon + 1
                        && rows == old(rows) + [ImageRow(d.icon, imageTypesByName[d.icon.imageTypeName]), IntentRow(d, icon)]
                        && intentsByAction == old(intentsByAction)[d.action := r.value]
                        && created == old(created) + [IntentTable]
    {
      var icon :- CreateImage(d.icon);
      var id := |rows|;
      rows := rows + [IntentRow(d, icon)];
      intentsByAction := intentsByAction[d.action := id];
      created := created + [IntentTable];
      return Ok(id);
    }

    /** Creates the user and profile through the directory, with the access
        control serialised by `json.dumps`, and registers the profile by
        username once `create_user` returns. */
    method CreateProfile(d: ProfileData) returns (r: Result<nat, Exception>)
      modifies this`profilesByUsername, this`created, directory`users, directory`profiles
      ensures var accessControl := dumps(AccessControlJson(d.accessControl));
              var args := UserArgs(d, accessControl);
              && (AsText(d.username).Err? || args.Err? ==>
                    r.Err? && directory.users == old(directory.users) && directory.profiles == old(directory.profiles))
              && (r.Ok? ==>
                    && d.username.JStr? && args.Ok?
                    && r.value == |old(directory.profiles)| && |directory.profiles| == r.value + 1
                    && directory.profiles[..r.value] == old(directory.profiles)
                    && directory.profiles[r.value].accessControl == accessControl
                    && directory.profiles[r.value].displayName == d.displayName.s)
      ensures r.Ok? ==> profilesByUsername == old(profilesByUsername)[d.username := r.value]
                        && created == old(created) + [ProfileTable]
      ensures r.Err? ==> profilesByUsername == old(profilesByUsername) && created == old(created)
      ensures r.Ok? <==> ProfileAccepted(d, dumps(AccessControlJson(d.accessControl)), directory.groups, directory.agencies)
      ensures old(directory.users) <= directory.users && old(directory.profiles) <= directory.profiles
              && |directory.profiles| <= |old(directory.profiles)| + 1
      ensures |directory.users|
              == |old(directory.users)| + if AsText(d.username).Ok? && UserArgs(d, dumps(AccessControlJson(d.accessControl))).Ok? then 1 else 0
    {
      var accessControl := dumps(AccessControlJson(d.accessControl));
      var username :- AsText(d.username);
      var args :- UserArgs(d, accessControl);
      var id := |directory.profiles|;
      var p :- directory.CreateUser(username, args);
      profilesByUsername := profilesByUsername[d.username := id];
      created := created + [ProfileTable];
      return Ok(id);
    }

    /** `instance.<relation>.add(...)` for each key `for key in keys`
        visits; the first key that is not registered fails its assertion.
        A list and a string are visited in order, an object's keys in an
        order the model leaves open; a value that cannot be iterated
        raises TypeError. */
    method LinkAll(listing: nat, relation: string, keys: Json, registry: map<Json, nat>,
                   entity: string, keyName: string) returns (r: Result<(), Exception>)
      modifies this`links
      ensures r.Ok? <==> AllIn(keys, registry)
      ensures Iterate(keys).Err? ==> r == Err(Iterate(keys).error) && links == old(links)
      ensures !keys.JObj? && Iterate(keys).Ok? ==>
                var ks := Iterate(keys).value;
                var k := Profiles.FirstMissing(ks, registry.Keys);
                && links == old(links) + LinksTo(listing, relation, Elements(ks[..k]), registry)
                && (k < |ks| ==> r == Err(NotFound(entity, keyName, ks[k])))
      ensures keys.JObj? && r.Err? ==>
                exists x :: x in Members(keys) && x !in registry && r == Err(NotFound(entity, keyName, x))
      ensures old(links) <= links <= old(links) + LinksTo(listing, relation, Members(keys), registry)
      ensures r.Ok? ==> links == old(links) + LinksTo(listing, relation, Members(keys), registry)
    {
      MembersIterated(keys);
      AllInMembers(keys, registry);
      if keys.JObj? {
        r := LinkKeys(listing, relation, Members(keys), registry, entity, keyName);
        return;
      }
      var it := Iterate(keys);
      if it.Err? {
        return Err(it.error);
      }
      r := LinkInOrder(listing, relation, it.value, registry, entity, keyName);
      LinkedPrefix(it.value, registry.Keys);
    }

    /** `LinkAll` as `create_listing` relies on it: all keys linked, or
        an error. */
    method LinkRelation(listing: nat, relation: string, keys: Json, registry: map<Json, nat>,
                        entity: string, keyName: string) returns (r: Result<(), Exception>)
      modifies this`links
      ensures r.Ok? <==> AllIn(keys, registry)
      ensures r.Ok? ==> links == old(links) + LinksTo(listing, relation, Members(keys), registry)
    {
      r := LinkAll(listing, relation, keys, registry, entity, keyName);
    }

    /** The loop of `LinkAll` over a list's items or a string's
        characters, in order. */
    method LinkInOrder(listing: nat, relation: string, ks: seq<Json>, registry: map<Json, nat>,
                       entity: string, keyName: string) returns (r: Result<(), Exception>)
      modifies this`links
      ensures r.Ok? <==> Elements(ks) <= registry.Keys
      ensures var k := Profiles.FirstMissing(ks, registry.Keys);
              && links == old(links) + LinksTo(listing, relation, Elements(ks[..k]), registry)
              && (k < |ks| ==> r == Err(NotFound(entity, keyName, ks[k])))
    {
      var i := 0;
      while i < |ks| && ks[i] in registry
        invariant i <= |ks|
        invariant forall j :: 0 <= j < i ==> ks[j] in registry
        invariant links == old(links) + LinksTo(listing, relation, Elements(ks[..i]), registry)
      {
        assert links + {Link(listing, relation, registry[ks[i]])}
               == old(links) + LinksTo(listing, relation, Elements(ks[..i + 1]), registry) by {
          LinksToGrows(listing, relation, Elements(ks[..i]), ks[i], registry);
          assert Elements(ks[..i + 1]) == Elements(ks[..i]) + {ks[i]};
        }
        links := links + {Link(listing, relation, registry[ks[i]])};
        i := i + 1;
      }
      Profiles.FirstMissingIsUnique(ks, registry.Keys, i);
      if i < |ks| {
        return Err(NotFound(entity, keyName, ks[i]));
      }
      assert ks[..i] == ks;
      return Ok(());
    }

    /** The loop of `LinkAll` over an object's keys, taken in whatever
        order the object yields them. */
    method LinkKeys(listing: nat, relation: string, keys: set<Json>, registry: map<Json, nat>,
                    entity: string, keyName: string) returns (r: Result<(), Exception>)
      modifies this`links
      ensures r.Ok? <==> keys <= registry.Keys
      ensures r.Err? ==> exists x :: x in keys && x !in registry && r == Err(NotFound(entity, keyName, x))
      ensures old(links) <= links <= old(links) + LinksTo(listing, relation, keys, registry)
      ensures r.Ok? ==> links == old(links) + LinksTo(listing, relation, keys, registry)
    {
      var rest := keys;
      while rest != {}
        invariant rest <= keys
        invariant keys - rest <= registry.Keys
        invariant links == old(links) + LinksTo(listing, relation, keys - rest, registry)
        decreases |rest|
      {
        var x :| x in rest;
        if x !in registry {
          return Err(NotFound(entity, keyName, x));
        }
        LinksToGrows(listing, relation, keys - rest, x, registry);
        assert keys - (rest - {x}) == (keys - rest) + {x};
        links := links + {Link(listing, relation, registry[x])};
        rest := rest - {x};
      }
      assert keys - rest == keys;
      return Ok(());
    }

    method CreateCustomFieldValues(listing: nat, values: seq<CustomFieldValueData>) returns (r: Result<(), Exception>)
      modifies this`rows
      ensures r.Ok? <==> forall j :: 0 <= j < |values| ==> values[j].customFieldLabel in customFieldsByLabel
      ensures r.Ok? ==> rows == old(rows) + CustomFieldValueRows(values, customFieldsByLabel, listing)
      ensures r.Err? ==> r.error.AssertionError? && |old(rows)| <= |rows| && rows[..|old(rows)|] == old(rows)
    {
      var i := 0;
      while i < |values|
        invariant i <= |values|
        invariant forall j :: 0 <= j < i ==> values[j].customFieldLabel in customFieldsByLabel
        invariant rows == old(rows) + CustomFieldValueRows(values[..i], customFieldsByLabel, listing)
      {
        var v := values[i];
        if v.customFieldLabel !in customFieldsByLabel {
          return Err(NotFound("CustomField", "label", v.customFieldLabel));
        }
        rows := rows + [CustomFieldValueRecord(customFieldsByLabel[v.customFieldLabel], v.value, listing)];
        i := i + 1;
      }
      assert values[..i] == values;
      return Ok(());
    }

    method CreateScreenshot(listing: nat, s: ScreenshotData) returns (r: Result<(), Exception>)
      modifies this`rows
      ensures r.Ok? <==> ImageResolves(s.smallImage, imageTypesByName) && ImageResolves(s.largeImage, imageTypesByName)
      ensures r.Ok? ==> rows == old(rows) + ScreenshotRowsAt(s, imageTypesByName, |old(rows)|, listing)
      ensures r.Err? ==> |old(rows)| <= |rows| && rows[..|old(rows)|] == old(rows)
    {
      var small :- CreateImage(s.smallImage);
      var large :- CreateImage(s.largeImage);
      rows := rows + [ScreenshotRecord(s.order, s.description, small, large, listing)];
      return Ok(());
    }

    method CreateScreenshots(listing: nat, shots: seq<ScreenshotData>) returns (r: Result<(), Exception>)
      modifies this`rows
      ensures r.Ok? <==> ScreenshotsResolve(shots, imageTypesByName)
      ensures r.Ok? ==> rows == old(rows) + ScreenshotRows(shots, imageTypesByName, |old(rows)|, listing)
      ensures r.Err? ==> |old(rows)| <= |rows| && rows[..|old(rows)|] == old(rows)
    {
      var i := 0;
      ghost var types := imageTypesByName;
      ghost var base := |rows|;
      while i < |shots|
        invariant i <= |shots|
        invariant ScreenshotsResolve(shots[..i], types)
        invariant rows == old(rows) + ScreenshotRows(shots[..i], types, base, listing)
      {
        var step := CreateScreenshot(listing, shots[i]);
        if step.Err? {
          ScreenshotFails(shots, types, i);
          return Err(step.error);
        }
        ScreenshotRowsSnoc(shots, types, base, listing, i);
        i := i + 1;
      }
      assert shots[..i] == shots;
      return Ok(());
    }

    method CreateDocUrls(listing: nat, docUrls: seq<DocUrlData>)
      modifies this`rows
      ensures rows == old(rows) + DocUrlRows(docUrls, listing)
    {
      var i := 0;
      while i < |docUrls|
        invariant i <= |docUrls|
        invariant rows == old(rows) + DocUrlRows(docUrls[..i], listing)
      {
        rows := rows + [DocUrlRecord(docUrls[i].name, docUrls[i].url, listing)];
        i := i + 1;
      }
      assert docUrls[..i] == docUrls;
    }

    /** For each activity: resolves its author, then performs the workflow
        operation its action names, if any. */
    method RunActivities(listing: nat, activities: seq<ListingActivityData>) returns (r: Result<(), Exception>)
      modifies this`workflowCalls
      ensures |old(workflowCalls)| <= |workflowCalls| && workflowCalls[..|old(workflowCalls)|] == old(workflowCalls)
      ensures match ActivityCalls(activities, profilesByUsername, listing)
              case Ok(calls) => r == Ok(()) && workflowCalls == old(workflowCalls) + calls
              case Err(e) => r == Err(e)
    {
      var i := 0;
      while i < |activities|
        invariant i <= |activities|
        invariant ActivityCalls(activities[..i], profilesByUsername, listing).Ok?
        invariant workflowCalls == old(workflowCalls) + ActivityCalls(activities[..i], profilesByUsername, listing).value
      {
        var a := activities[i];
        assert activities[..i + 1][..i] == activities[..i];
        if a.authorUsername !in profilesByUsername {
          ActivityCallsFailAt(activities, profilesByUsername, listing, i);
          return Err(NotFound("Profile", "username", a.authorUsername));
        }
        var op := ActivityOperation(a.action);
        if op.Some? {
          workflowCalls := workflowCalls + [WorkflowCall(op.value, profilesByUsername[a.authorUsername], listing)];
        }
        i := i + 1;
      }
      assert activities[..i] == activities;
      r := Ok(());
    }

    /** Resolves the agency and listing type, saves the four icons and the
        listing, then its links, custom field values, screenshots, document
        links and activities. It succeeds exactly when everything it names
        resolves. */
    method CreateListing(d: ListingData) returns (r: Result<nat, Exception>)
      modifies this`rows, this`links, this`workflowCalls, this`created
      ensures r.Ok? <==> ListingResolves(Registry(), d)
      ensures Scalar(d, "agency_title") !in agenciesByTitle ==>
                r == Err(NotFound("Agency", "title", Scalar(d, "agency_title"))) && rows == old(rows)
      ensures Scalar(d, "agency_title") in agenciesByTitle && Scalar(d, "listing_type_title") !in listingTypesByTitle ==>
                r == Err(NotFound("ListingType", "title", Scalar(d, "listing_type_title"))) && rows == old(rows)
      ensures r.Err? ==> created == old(created)
      ensures r.Ok? ==> r.value == |old(rows)| + 4 && rows == old(rows) + ListingRows(Registry(), d, r.value)
      ensures r.Ok? ==> links == old(links) + ListingLinks(Registry(), d, r.value)
      ensures r.Ok? ==> && |old(workflowCalls)| <= |workflowCalls|
                        && ActivityCalls(d.activities, profilesByUsername, r.value) == Ok(workflowCalls[|old(workflowCalls)|..])
      ensures r.Ok? ==> created == old(created) + [ListingTable]
    {
      var agencyTitle := Scalar(d, "agency_title");
      if agencyTitle !in agenciesByTitle {
        return Err(NotFound("Agency", "title", agencyTitle));
      }
      var typeTitle := Scalar(d, "listing_type_title");
      if typeTitle !in listingTypesByTitle {
        return Err(NotFound("ListingType", "title", typeTitle));
      }
      r := SaveListing(d);
      if r.Ok? {
        created := created + [ListingTable];
      }
    }

    /** The listing row with its icons, and then everything attached to it. */
    method SaveListing(d: ListingData) returns (r: Result<nat, Exception>)
      requires Scalar(d, "agency_title") in agenciesByTitle
      requires Scalar(d, "listing_type_title") in listingTypesByTitle
      modifies this`rows, this`links, this`workflowCalls
      ensures r.Ok? <==> ListingResolves(Registry(), d)
      ensures r.Ok? ==> r.value == |old(rows)| + 4 && rows == old(rows) + ListingRows(Registry(), d, r.value)
      ensures r.Ok? ==> links == old(links) + ListingLinks(Registry(), d, r.value)
      ensures r.Ok? ==> && |old(workflowCalls)| <= |workflowCalls|
                        && ActivityCalls(d.activities, profilesByUsername, r.value) == Ok(workflowCalls[|old(workflowCalls)|..])
    {
      ghost var reg := Registry();
      var id :- SaveListingRow(d);
      var step := AttachAll(d, id);
      if step.Err? { return Err(step.error); }
      AppendAssoc(old(rows), ListingHeadRows(reg, d, id), ListingTailRows(reg, d, id));
      return Ok(id);
    }

    /** Everything create_listing does after saving the listing row. */
    method AttachAll(d: ListingData, id: nat) returns (r: Result<(), Exception>)
      requires |rows| == id + 1
      modifies this`links, this`rows, this`workflowCalls
      ensures r.Ok? <==> RelatedResolve(Registry(), d) && DetailsResolve(Registry(), d)
      ensures r.Ok? ==> rows == old(rows) + ListingTailRows(Registry(), d, id)
      ensures r.Ok? ==> links == old(links) + ListingLinks(Registry(), d, id)
      ensures |old(workflowCalls)| <= |workflowCalls|
      ensures r.Ok? ==> ActivityCalls(d.activities, profilesByUsername, id) == Ok(workflowCalls[|old(workflowCalls)|..])
    {
      ghost var reg := Registry();
      r := AttachRelated(d, id);
      if r.Err? { return; }
      ghost var attached := rows;
      r := AttachDetails(d, id);
      if r.Err? { return; }
      TailRowsAppend(reg, d, id, old(rows), attached, rows);
    }

    /** Saves the four icons in order and then the listing row; an icon
        that fails stops it, with only the icons before it saved. */
    method SaveListingRow(d: ListingData) returns (r: Result<nat, Exception>)
      requires Scalar(d, "agency_title") in agenciesByTitle
      requires Scalar(d, "listing_type_title") in listingTypesByTitle
      modifies this`rows
      ensures r.Ok? <==> IconsResolve(d, imageTypesByName)
      ensures r.Err? ==> |old(rows)| <= |rows| && rows[..|old(rows)|] == old(rows)
      ensures r.Ok? ==> r.value == |old(rows)| + 4 && rows == old(rows) + ListingHeadRows(Registry(), d, r.value)
    {
      var icons :- SaveIcons(d);
      var id := |rows|;
      rows := rows + [ListingRow(d, icons, agenciesByTitle[Scalar(d, "agency_title")],
                                 listingTypesByTitle[Scalar(d, "listing_type_title")])];
      AppendAssoc(old(rows), IconRows(d, imageTypesByName), [rows[id]]);
      return Ok(id);
    }

    /** The small, large, banner and large banner icons, in that order. */
    method SaveIcons(d: ListingData) returns (r: Result<seq<nat>, Exception>)
      modifies this`rows
      ensures r.Ok? <==> IconsResolve(d, imageTypesByName)
      ensures r.Err? ==> |old(rows)| <= |rows| && rows[..|old(rows)|] == old(rows)
      ensures r.Ok? ==> && rows == old(rows) + IconRows(d, imageTypesByName)
                        && r.value == [|old(rows)|, |old(rows)| + 1, |old(rows)| + 2, |old(rows)| + 3]
    {
      var small :- CreateImage(d.smallIcon);
      var large :- CreateImage(d.largeIcon);
      var banner :- CreateImage(d.bannerIcon);
      var largeBanner :- CreateImage(d.largeBannerIcon);
      return Ok([small, large, banner, largeBanner]);
    }

    /** Categories, contacts, custom field values, intents, owners and
        tags, in the order create_listing attaches them. */
    method AttachRelated(d: ListingData, id: nat) returns (r: Result<(), Exception>)
      modifies this`links, this`rows
      ensures r.Ok? <==> RelatedResolve(Registry(), d)
      ensures r.Err? ==> |old(rows)| <= |rows| && rows[..|old(rows)|] == old(rows)
      ensures r.Ok? ==> && links == old(links) + ListingLinks(Registry(), d, id)
                        && rows == old(rows) + CustomFieldValueRows(d.customFieldValues, customFieldsByLabel, id)
    {
      r := LinkFirst(d, id);
      if r.Err? { return; }
      r := CreateCustomFieldValues(id, d.customFieldValues);
      if r.Err? { return; }
      r := LinkOthers(d, id);
      if r.Err? { return; }
    }

    /** The categories and contacts of a listing. */
    method LinkFirst(d: ListingData, id: nat) returns (r: Result<(), Exception>)
      modifies this`links
      ensures r.Ok? <==> AllIn(d.categoryTitles, categoriesByTitle) && AllIn(d.contactEmails, contactsByEmail)
      ensures r.Ok? ==> links == old(links) + (LinksTo(id, "categories", Members(d.categoryTitles), categoriesByTitle)
                                              + LinksTo(id, "contacts", Members(d.contactEmails), contactsByEmail))
    {
      r := LinkRelation(id, "categories", d.categoryTitles, categoriesByTitle, "Category", "title");
      if r.Err? { return; }
      r := LinkRelation(id, "contacts", d.contactEmails, contactsByEmail, "Contact", "email");
      if r.Err? { return; }
    }

    /** The intents, owners and tags of a listing. */
    method LinkOthers(d: ListingData, id: nat) returns (r: Result<(), Exception>)
      modifies this`links
      ensures r.Ok? <==> AllIn(d.intentActions, intentsByAction) && AllIn(d.ownerUsernames, profilesByUsername)
                         && AllIn(d.tagNames, tagsByName)
      ensures r.Ok? ==> links == old(links) + (LinksTo(id, "intents", Members(d.intentActions), intentsByAction)
                                              + LinksTo(id, "owners", Members(d.ownerUsernames), profilesByUsername)
                                              + LinksTo(id, "tags", Members(d.tagNames), tagsByName))
    {
      r := LinkRelation(id, "intents", d.intentActions, intentsByAction, "Intent", "action");
      if r.Err? { return; }
      r := LinkRelation(id, "owners", d.ownerUsernames, profilesByUsername, "Profile", "username");
      if r.Err? { return; }
      r := LinkRelation(id, "tags", d.tagNames, tagsByName, "Tag", "name");
      if r.Err? { return; }
    }

    /** Screenshots, document links and then activities. */
    method AttachDetails(d: ListingData, id: nat) returns (r: Result<(), Exception>)
      modifies this`rows, this`workflowCalls
      ensures r.Ok? <==> DetailsResolve(Registry(), d)
      ensures r.Err? ==> |old(rows)| <= |rows| && rows[..|old(rows)|] == old(rows)
      ensures |old(workflowCalls)| <= |workflowCalls|
      ensures r.Ok? ==>
        && rows == old(rows) + (ScreenshotRows(d.screenshots, imageTypesByName, |old(rows)|, id)
                                + DocUrlRows(d.docUrls, id))
        && ActivityCalls(d.activities, profilesByUsername, id) == Ok(workflowCalls[|old(workflowCalls)|..])
    {
      r := CreateScreenshots(id, d.screenshots);
      if r.Err? { return; }
      CreateDocUrls(id, d.docUrls);
      AppendAssoc(old(rows), ScreenshotRows(d.screenshots, imageTypesByName, |old(rows)|, id), DocUrlRows(d.docUrls, id));
      r := RunActivities(id, d.activities);
      if r.Err? {
        assert rows[..|old(rows)|] == old(rows);
        return;
      }
    }
  }
}
