/** ozpcenter/scripts/model_schema.py: the seed-data records and their
    parsers. A parser copies values out of a decoded JSON object without
    checking their types, so every field holds a JSON value. A missing
    required key raises KeyError; indexing a value that is not an object
    raises TypeError, calling `.get` on one AttributeError, and iterating a
    value that is not a list is taken to raise TypeError. */
module ModelSchema {
  import opened Wrappers
  import opened Exceptions
  import opened Json

  const DefaultSecurityMarking: string := "UNCLASSIFIED"
  const AgencyIcon: string := "agency_icon"
  const IntentIcon: string := "intent_icon"
  const SmallIcon: string := "small_icon"
  const LargeIcon: string := "large_icon"
  const BannerIcon: string := "banner_icon"
  const LargeBannerIcon: string := "large_banner_icon"
  const SmallScreenshot: string := "small_screenshot"
  const LargeScreenshot: string := "large_screenshot"

  datatype ImageData = ImageData(filename: Json, securityMarking: Json, imageTypeName: Json)
  datatype AgencyData = AgencyData(title: Json, shortName: Json, icon: ImageData)
  datatype CategoryData = CategoryData(title: Json, description: Json)
  datatype ContactData = ContactData(contactTypeName: Json, name: Json, email: Json,
                                     organization: Json, securePhone: Json, unsecurePhone: Json)
  datatype ContactTypeData = ContactTypeData(name: Json, required: Json)
  datatype CustomFieldData = CustomFieldData(
    typeName: Json, section: Json, displayName: Json, fieldLabel: Json, description: Json,
    tooltip: Json, isRequired: Json, adminOnly: Json, properties: Json, allListingTypes: Json)
  datatype CustomFieldTypeData = CustomFieldTypeData(name: Json, displayName: Json, mediaType: Json, options: Json)
  datatype CustomFieldValueData = CustomFieldValueData(customFieldLabel: Json, value: Json)
  datatype ImageTypeData = ImageTypeData(name: Json, minWidth: Json, maxWidth: Json,
                                         minHeight: Json, maxHeight: Json, maxSizeBytes: Json)
  datatype IntentData = IntentData(action: Json, mediaType: Json, intentLabel: Json, icon: ImageData)
  datatype ListingTypeData = ListingTypeData(title: Json, description: Json)
  datatype ScreenshotData = ScreenshotData(order: Json, description: Json,
                                           largeImage: ImageData, smallImage: ImageData)
  datatype DocUrlData = DocUrlData(name: Json, url: Json)
  datatype ListingActivityData = ListingActivityData(action: Json, authorUsername: Json)
  /** `scalars` holds the seventeen plain fields, title to listing_type_title,
      under their source names. */
  datatype ListingData = ListingData(
    scalars: map<string, Json>,
    smallIcon: ImageData, largeIcon: ImageData, bannerIcon: ImageData, largeBannerIcon: ImageData,
    categoryTitles: Json, contactEmails: Json, intentActions: Json, ownerUsernames: Json, tagNames: Json,
    activities: seq<ListingActivityData>, customFieldValues: seq<CustomFieldValueData>,
    docUrls: seq<DocUrlData>, screenshots: seq<ScreenshotData>)
  datatype AccessControlData = AccessControlData(clearances: Json, formalAccesses: Json, visas: Json)
  datatype ProfileData = ProfileData(
    username: Json, displayName: Json, bio: Json, email: Json, dn: Json, groups: Json,
    organizations: Json, stewardedOrganizations: Json, accessControl: AccessControlData)
  datatype TagData = TagData(name: Json)
  datatype ModelData = ModelData(
    agencies: seq<AgencyData>, categories: seq<CategoryData>, contacts: seq<ContactData>,
    contactTypes: seq<ContactTypeData>, customFields: seq<CustomFieldData>,
    customFieldTypes: seq<CustomFieldTypeData>, imageTypes: seq<ImageTypeData>,
    intents: seq<IntentData>, listings: seq<ListingData>, listingTypes: seq<ListingTypeData>,
    profiles: seq<ProfileData>, tags: seq<TagData>)

  /** `data[key]`. */
  function Index(data: Json, key: string): (r: Result<Json, Exception>)
    ensures data.JObj? && key in data.fields ==> r == Ok(data.fields[key])
    ensures data.JObj? && key !in data.fields ==> r == Err(KeyError(key))
    ensures !data.JObj? ==> r.Err? && r.error.TypeError?
  {
    if !data.JObj? then Err(TypeError("object is not subscriptable"))
    else if key !in data.fields then Err(KeyError(key))
    else Ok(data.fields[key])
  }

  /** `data.get(key, default)` on an object: a present key gives its value,
      even None. */
  function Get(fields: map<string, Json>, key: string, default: Json): Json {
    if key in fields then fields[key] else default
  }

  /** `[parse(x) for x in items]`: iterates `items` as Python does (a
      list by its items, a string by its characters, an object by its keys)
      and parses element by element, in order; the first element that
      fails stops the comprehension. */
  function ParseList<T>(items: Json, parse: Json -> Result<T, Exception>): (r: Result<seq<T>, Exception>)
    ensures Iterate(items).Err? ==> r == Err(Iterate(items).error)
    ensures r.Ok? ==> Iterate(items).Ok? && |r.value| == |Iterate(items).value|
                      && forall i :: 0 <= i < |r.value| ==> parse(Iterate(items).value[i]) == Ok(r.value[i])
    ensures Iterate(items).Ok? && (forall x :: x in Iterate(items).value ==> parse(x).Ok?) ==> r.Ok?
    ensures r.Err? && Iterate(items).Ok? ==>
              var xs := Iterate(items).value;
              exists i :: 0 <= i < |xs| && parse(xs[i]) == Err(r.error) && forall j :: 0 <= j < i ==> parse(xs[j]).Ok?
  {
    var xs :- Iterate(items);
    ParseEach(xs, parse)
  }

  /** Parses `xs` from the front; the first failure is the result. */
  function ParseEach<T>(xs: seq<Json>, parse: Json -> Result<T, Exception>): (r: Result<seq<T>, Exception>)
    ensures r.Ok? ==> |r.value| == |xs| && forall i :: 0 <= i < |xs| ==> parse(xs[i]) == Ok(r.value[i])
    ensures (forall x :: x in xs ==> parse(x).Ok?) ==> r.Ok?
    ensures r.Err? ==> exists i :: 0 <= i < |xs| && parse(xs[i]) == Err(r.error) && forall j :: 0 <= j < i ==> parse(xs[j]).Ok?
  {
    if xs == [] then Ok([])
    else
      var first :- parse(xs[0]);
      var rest :- ParseEach(xs[1..], parse);
      Ok([first] + rest)
  }

  function ParseImage(data: Json, defaultImageType: string): (r: Result<ImageData, Exception>)
    ensures r.Ok? ==> data.JObj? && "filename" in data.fields && r.value.filename == data.fields["filename"]
    ensures r.Ok? && "security_marking" !in data.fields ==> r.value.securityMarking == JStr(DefaultSecurityMarking)
    ensures r.Ok? && "image_type_name" !in data.fields ==> r.value.imageTypeName == JStr(defaultImageType)
    ensures r.Ok? && "image_type_name" in data.fields ==> r.value.imageTypeName == data.fields["image_type_name"]
    ensures data.JObj? && "filename" in data.fields ==> r.Ok?
  {
    var filename :- Index(data, "filename");
    var marking := Get(data.fields, "security_marking", JStr(DefaultSecurityMarking));
    var typeName := Get(data.fields, "image_type_name", JStr(defaultImageType));
    Ok(ImageData(filename, marking, typeName))
  }

  /** The image nested under `key`, parsed with its context's default type. */
  function ParseImageAt(data: Json, key: string, defaultImageType: string): (r: Result<ImageData, Exception>)
    ensures r.Ok? ==> data.JObj? && key in data.fields && ParseImage(data.fields[key], defaultImageType) == r
  {
    var image :- Index(data, key);
    ParseImage(image, defaultImageType)
  }

  function ParseAccessControl(data: Json): Result<AccessControlData, Exception> {
    var clearances :- Index(data, "clearances");
    var formal :- Index(data, "formal_accesses");
    var visas :- Index(data, "visas");
    Ok(AccessControlData(clearances, formal, visas))
  }

  /** An agency's icon defaults to the agency_icon image type. */
  function ParseAgency(data: Json): (r: Result<AgencyData, Exception>)
    ensures r.Ok? ==> data.JObj? && "title" in data.fields && "short_name" in data.fields && "icon" in data.fields
                      && r.value.title == data.fields["title"] && r.value.shortName == data.fields["short_name"]
                      && ParseImage(data.fields["icon"], AgencyIcon) == Ok(r.value.icon)
    ensures r.Ok? <==> data.JObj? && "title" in data.fields && "short_name" in data.fields && "icon" in data.fields
                       && ParseImage(data.fields["icon"], AgencyIcon).Ok?
  {
    var title :- Index(data, "title");
    var shortName :- Index(data, "short_name");
    var icon :- ParseImageAt(data, "icon", AgencyIcon);
    Ok(AgencyData(title, shortName, icon))
  }

  function ParseCategory(data: Json): Result<CategoryData, Exception> {
    var title :- Index(data, "title");
    var description :- Index(data, "description");
    Ok(CategoryData(title, description))
  }

  /** Organization and both phones default to None; the rest are required. */
  function ParseContact(data: Json): (r: Result<ContactData, Exception>)
    ensures r.Ok? <==> data.JObj? && "contact_type_name" in data.fields && "name" in data.fields
                       && "email" in data.fields
    ensures r.Ok? && "organization" !in data.fields ==> r.value.organization == JNull
    ensures r.Ok? && "secure_phone" !in data.fields ==> r.value.securePhone == JNull
    ensures r.Ok? && "unsecure_phone" !in data.fields ==> r.value.unsecurePhone == JNull
    ensures r.Ok? ==> r.value.contactTypeName == data.fields["contact_type_name"]
                      && r.value.name == data.fields["name"] && r.value.email == data.fields["email"]
    ensures r.Ok? && "organization" in data.fields ==> r.value.organization == data.fields["organization"]
    ensures r.Ok? && "secure_phone" in data.fields ==> r.value.securePhone == data.fields["secure_phone"]
    ensures r.Ok? && "unsecure_phone" in data.fields ==> r.value.unsecurePhone == data.fields["unsecure_phone"]
  {
    var typeName :- Index(data, "contact_type_name");
    var name :- Index(data, "name");
    var email :- Index(data, "email");
    var organization := Get(data.fields, "organization", JNull);
    var securePhone := Get(data.fields, "secure_phone", JNull);
    var unsecurePhone := Get(data.fields, "unsecure_phone", JNull);
    Ok(ContactData(typeName, name, email, organization, securePhone, unsecurePhone))
  }

  function ParseContactType(data: Json): Result<ContactTypeData, Exception> {
    var name :- Index(data, "name");
    var required :- Index(data, "required");
    Ok(ContactTypeData(name, required))
  }

  function ParseCustomField(data: Json): (r: Result<CustomFieldData, Exception>)
    ensures r.Ok? ==> data.JObj? && ("properties" !in data.fields ==> r.value.properties == JNull)
                      && ("properties" in data.fields ==> r.value.properties == data.fields["properties"])
    ensures r.Ok? <==> data.JObj? && "type_name" in data.fields && "section" in data.fields && "display_name" in data.fields
                       && "label" in data.fields && "description" in data.fields && "tooltip" in data.fields
                       && "is_required" in data.fields && "admin_only" in data.fields && "all_listing_types" in data.fields
    ensures r.Ok? ==> && r.value.typeName == data.fields["type_name"] && r.value.section == data.fields["section"]
                      && r.value.displayName == data.fields["display_name"] && r.value.fieldLabel == data.fields["label"]
                      && r.value.description == data.fields["description"] && r.value.tooltip == data.fields["tooltip"]
                      && r.value.isRequired == data.fields["is_required"] && r.value.adminOnly == data.fields["admin_only"]
                      && r.value.allListingTypes == data.fields["all_listing_types"]
  {
    var typeName :- Index(data, "type_name");
    var section :- Index(data, "section");
    var displayName :- Index(data, "display_name");
    var labelValue :- Index(data, "label");
    var description :- Index(data, "description");
    var tooltip :- Index(data, "tooltip");
    var isRequired :- Index(data, "is_required");
    var adminOnly :- Index(data, "admin_only");
    var properties := Get(data.fields, "properties", JNull);
    var allTypes :- Index(data, "all_listing_types");
    Ok(CustomFieldData(typeName, section, displayName, labelValue, description, tooltip,
                       isRequired, adminOnly, properties, allTypes))
  }

  function ParseCustomFieldType(data: Json): (r: Result<CustomFieldTypeData, Exception>)
    ensures r.Ok? ==> data.JObj? && ("options" !in data.fields ==> r.value.options == JNull)
                      && ("options" in data.fields ==> r.value.options == data.fields["options"])
    ensures r.Ok? <==> data.JObj? && "name" in data.fields && "display_name" in data.fields && "media_type" in data.fields
    ensures r.Ok? ==> && r.value.name == data.fields["name"] && r.value.displayName == data.fields["display_name"]
                      && r.value.mediaType == data.fields["media_type"]
  {
    var name :- Index(data, "name");
    var displayName :- Index(data, "display_name");
    var mediaType :- Index(data, "media_type");
    var options := Get(data.fields, "options", JNull);
    Ok(CustomFieldTypeData(name, displayName, mediaType, options))
  }

  function ParseCustomFieldValue(data: Json): Result<CustomFieldValueData, Exception> {
    var labelValue :- Index(data, "custom_field_label");
    var value :- Index(data, "value");
    Ok(CustomFieldValueData(labelValue, value))
  }

  function ParseDocUrl(data: Json): Result<DocUrlData, Exception> {
    var name :- Index(data, "name");
    var url :- Index(data, "url");
    Ok(DocUrlData(name, url))
  }

  /** Sizes default to 16 (minimums), 2048 (maximums) and 2097152 bytes. */
  function ParseImageType(data: Json): (r: Result<ImageTypeData, Exception>)
    ensures r.Ok? <==> data.JObj? && "name" in data.fields
    ensures r.Ok? && "min_width" !in data.fields ==> r.value.minWidth == JInt(16)
    ensures r.Ok? && "max_width" !in data.fields ==> r.value.maxWidth == JInt(2048)
    ensures r.Ok? && "min_height" !in data.fields ==> r.value.minHeight == JInt(16)
    ensures r.Ok? && "max_height" !in data.fields ==> r.value.maxHeight == JInt(2048)
    ensures r.Ok? && "max_size_bytes" !in data.fields ==> r.value.maxSizeBytes == JInt(2097152)
    ensures r.Ok? ==> r.value.name == data.fields["name"]
    ensures r.Ok? && "min_width" in data.fields ==> r.value.minWidth == data.fields["min_width"]
    ensures r.Ok? && "max_width" in data.fields ==> r.value.maxWidth == data.fields["max_width"]
    ensures r.Ok? && "min_height" in data.fields ==> r.value.minHeight == data.fields["min_height"]
    ensures r.Ok? && "max_height" in data.fields ==> r.value.maxHeight == data.fields["max_height"]
    ensures r.Ok? && "max_size_bytes" in data.fields ==> r.value.maxSizeBytes == data.fields["max_size_bytes"]
  {
    var name :- Index(data, "name");
    var minWidth := Get(data.fields, "min_width", JInt(16));
    var maxWidth := Get(data.fields, "max_width", JInt(2048));
    var minHeight := Get(data.fields, "min_height", JInt(16));
    var maxHeight := Get(data.fields, "max_height", JInt(2048));
    var maxSize := Get(data.fields, "max_size_bytes", JInt(2097152));
    Ok(ImageTypeData(name, minWidth, maxWidth, minHeight, maxHeight, maxSize))
  }

  /** An intent's icon defaults to the intent_icon image type. */
  function ParseIntent(data: Json): (r: Result<IntentData, Exception>)
    ensures r.Ok? ==> data.JObj? && "icon" in data.fields
                      && Ok(r.value.icon) == ParseImage(data.fields["icon"], IntentIcon)
    ensures r.Ok? <==> data.JObj? && "action" in data.fields && "media_type" in data.fields && "label" in data.fields
                       && "icon" in data.fields && ParseImage(data.fields["icon"], IntentIcon).Ok?
    ensures r.Ok? ==> && r.value.action == data.fields["action"] && r.value.mediaType == data.fields["media_type"]
                      && r.value.intentLabel == data.fields["label"]
  {
    var action :- Index(data, "action");
    var mediaType :- Index(data, "media_type");
    var labelValue :- Index(data, "label");
    var icon :- ParseImageAt(data, "icon", IntentIcon);
    Ok(IntentData(action, mediaType, labelValue, icon))
  }

  function ParseListingActivity(data: Json): Result<ListingActivityData, Exception> {
    var action :- Index(data, "action");
    var author :- Index(data, "author_username");
    Ok(ListingActivityData(action, author))
  }

  function ParseListingType(data: Json): Result<ListingTypeData, Exception> {
    var title :- Index(data, "title");
    var description :- Index(data, "description");
    Ok(ListingTypeData(title, description))
  }

  /** Falsy organisation lists become []. */
  function ParseProfile(data: Json): (r: Result<ProfileData, Exception>)
    ensures r.Ok? ==> data.JObj? && "organizations" in data.fields && "stewarded_organizations" in data.fields
    ensures r.Ok? ==>
      r.value.organizations == if Truthy(data.fields["organizations"]) then data.fields["organizations"] else JList([])
    ensures r.Ok? ==>
      r.value.stewardedOrganizations ==
        if Truthy(data.fields["stewarded_organizations"]) then data.fields["stewarded_organizations"] else JList([])
    ensures r.Ok? ==> && "username" in data.fields && r.value.username == data.fields["username"]
                      && "display_name" in data.fields && r.value.displayName == data.fields["display_name"]
                      && "bio" in data.fields && r.value.bio == data.fields["bio"]
                      && "email" in data.fields && r.value.email == data.fields["email"]
                      && "dn" in data.fields && r.value.dn == data.fields["dn"]
                      && "groups" in data.fields && r.value.groups == data.fields["groups"]
                      && "access_control" in data.fields
                      && ParseAccessControl(data.fields["access_control"]) == Ok(r.value.accessControl)
  {
    var orgsIn :- Index(data, "organizations");
    var orgs := if Truthy(orgsIn) then orgsIn else JList([]);
    var stewardedIn :- Index(data, "stewarded_organizations");
    var stewarded := if Truthy(stewardedIn) then stewardedIn else JList([]);
    var username :- Index(data, "username");
    var displayName :- Index(data, "display_name");
    var bio :- Index(data, "bio");
    var email :- Index(data, "email");
    var dn :- Index(data, "dn");
    var groups :- Index(data, "groups");
    var acIn :- Index(data, "access_control");
    var ac :- ParseAccessControl(acIn);
    Ok(ProfileData(username, displayName, bio, email, dn, groups, orgs, stewarded, ac))
  }

  /** Screenshot images default to the large/small screenshot types. */
  function ParseScreenshot(data: Json): (r: Result<ScreenshotData, Exception>)
    ensures r.Ok? ==> data.JObj? && "large_image" in data.fields && "small_image" in data.fields
    ensures r.Ok? ==> Ok(r.value.largeImage) == ParseImage(data.fields["large_image"], LargeScreenshot)
                      && Ok(r.value.smallImage) == ParseImage(data.fields["small_image"], SmallScreenshot)
    ensures r.Ok? ==> && "order" in data.fields && r.value.order == data.fields["order"]
                      && "description" in data.fields && r.value.description == data.fields["description"]
  {
    var order :- Index(data, "order");
    var description :- Index(data, "description");
    var large :- ParseImageAt(data, "large_image", LargeScreenshot);
    var small :- ParseImageAt(data, "small_image", SmallScreenshot);
    Ok(ScreenshotData(order, description, large, small))
  }

  function ParseTag(data: Json): Result<TagData, Exception> {
    var name :- Index(data, "name");
    Ok(TagData(name))
  }

  /** The plain listing fields, read in order. */
  const ListingScalarKeys: seq<string> := [
    "title", "description", "description_short", "launch_url", "version_name", "unique_name",
    "what_is_new", "usage_requirements", "system_requirements", "security_marking",
    "is_enabled", "is_private", "is_featured", "is_exportable", "iframe_compatible",
    "agency_title", "listing_type_title"]

  /** Reads `keys` from `data` in order into a map. */
  function ReadKeys(data: Json, keys: seq<string>): (r: Result<map<string, Json>, Exception>)
    ensures r.Ok? ==> data.JObj? && r.value.Keys == (set k | k in keys)
                      && forall k :: k in keys ==> k in data.fields && k in r.value && r.value[k] == data.fields[k]
    ensures data.JObj? && (forall k :: k in keys ==> k in data.fields) ==> r.Ok?
  {
    if |keys| == 0 then (if data.JObj? then Ok(map[]) else Err(TypeError("object is not subscriptable")))
    else
      var init :- ReadKeys(data, keys[..|keys| - 1]);
      var v :- Index(data, keys[|keys| - 1]);
      assert keys == keys[..|keys| - 1] + [keys[|keys| - 1]];
      Ok(init[keys[|keys| - 1] := v])
  }

  /** The four icons default to their own image types; `intent_actions`
      stays None when absent. */
  function ParseListing(data: Json): (r: Result<ListingData, Exception>)
    ensures r.Ok? ==> data.JObj? && r.value.scalars.Keys == set k | k in ListingScalarKeys
    ensures r.Ok? ==> && "small_icon" in data.fields && "large_icon" in data.fields
                      && "banner_icon" in data.fields && "large_banner_icon" in data.fields
                      && "activities" in data.fields && Iterate(data.fields["activities"]).Ok?
                      && "screenshots" in data.fields && Iterate(data.fields["screenshots"]).Ok?
    ensures r.Ok? ==> Ok(r.value.smallIcon) == ParseImage(data.fields["small_icon"], SmallIcon)
                      && Ok(r.value.largeIcon) == ParseImage(data.fields["large_icon"], LargeIcon)
                      && Ok(r.value.bannerIcon) == ParseImage(data.fields["banner_icon"], BannerIcon)
                      && Ok(r.value.largeBannerIcon) == ParseImage(data.fields["large_banner_icon"], LargeBannerIcon)
    ensures r.Ok? ==> ("intent_actions" !in data.fields ==> r.value.intentActions == JNull)
                      && ("intent_actions" in data.fields ==> r.value.intentActions == data.fields["intent_actions"])
    ensures r.Ok? ==> ReadKeys(data, ListingScalarKeys) == Ok(r.value.scalars)
    ensures r.Ok? ==> && "category_titles" in data.fields && r.value.categoryTitles == data.fields["category_titles"]
                      && "contact_emails" in data.fields && r.value.contactEmails == data.fields["contact_emails"]
                      && "owner_usernames" in data.fields && r.value.ownerUsernames == data.fields["owner_usernames"]
                      && "tag_names" in data.fields && r.value.tagNames == data.fields["tag_names"]
    ensures r.Ok? ==> && "custom_field_values" in data.fields && "doc_urls" in data.fields
                      && ParseList(data.fields["custom_field_values"], ParseCustomFieldValue) == Ok(r.value.customFieldValues)
                      && ParseList(data.fields["doc_urls"], ParseDocUrl) == Ok(r.value.docUrls)
    ensures r.Ok? ==> ParseList(data.fields["activities"], ParseListingActivity) == Ok(r.value.activities)
                      && ParseList(data.fields["screenshots"], ParseScreenshot) == Ok(r.value.screenshots)
  {
    var activitiesIn :- Index(data, "activities");
    var activities :- ParseList(activitiesIn, ParseListingActivity);
    var valuesIn :- Index(data, "custom_field_values");
    var values :- ParseList(valuesIn, ParseCustomFieldValue);
    var docUrlsIn :- Index(data, "doc_urls");
    var docUrls :- ParseList(docUrlsIn, ParseDocUrl);
    var screenshotsIn :- Index(data, "screenshots");
    var screenshots :- ParseList(screenshotsIn, ParseScreenshot);
    var scalars :- ReadKeys(data, ListingScalarKeys);
    var smallIcon :- ParseImageAt(data, "small_icon", SmallIcon);
    var largeIcon :- ParseImageAt(data, "large_icon", LargeIcon);
    var bannerIcon :- ParseImageAt(data, "banner_icon", BannerIcon);
    var largeBannerIcon :- ParseImageAt(data, "large_banner_icon", LargeBannerIcon);
    var categories :- Index(data, "category_titles");
    var contacts :- Index(data, "contact_emails");
    var intents := Get(data.fields, "intent_actions", JNull);
    var owners :- Index(data, "owner_usernames");
    var tags :- Index(data, "tag_names");
    Ok(ListingData(scalars, smallIcon, largeIcon, bannerIcon, largeBannerIcon,
                   categories, contacts, intents, owners, tags,
                   activities, values, docUrls, screenshots))
  }

  /** `[parse(x) for x in data[key]]`. */
  function ParseAt<T>(data: Json, key: string, parse: Json -> Result<T, Exception>): (r: Result<seq<T>, Exception>)
    ensures r.Ok? ==> data.JObj? && key in data.fields && ParseList(data.fields[key], parse) == r
    ensures Index(data, key).Err? ==> r == Err(Index(data, key).error)
  {
    var v :- Index(data, key);
    ParseList(v, parse)
  }

  /** `parse_model`: each top-level list parsed element-wise; it fails
      exactly when one of the twelve comprehensions does. */
  function ParseModel(data: Json): (r: Result<ModelData, Exception>)
    ensures r.Ok? <==>
            && ParseAt(data, "agencies", ParseAgency).Ok?
            && ParseAt(data, "categories", ParseCategory).Ok?
            && ParseAt(data, "contacts", ParseContact).Ok?
            && ParseAt(data, "contact_types", ParseContactType).Ok?
            && ParseAt(data, "custom_fields", ParseCustomField).Ok?
            && ParseAt(data, "custom_field_types", ParseCustomFieldType).Ok?
            && ParseAt(data, "image_types", ParseImageType).Ok?
            && ParseAt(data, "intents", ParseIntent).Ok?
            && ParseAt(data, "listings", ParseListing).Ok?
            && ParseAt(data, "listing_types", ParseListingType).Ok?
            && ParseAt(data, "profiles", ParseProfile).Ok?
            && ParseAt(data, "tags", ParseTag).Ok?
    ensures Index(data, "agencies").Err? ==> r == Err(Index(data, "agencies").error)
    ensures r.Ok? ==>
      && data.JObj?
      && ParseAt(data, "agencies", ParseAgency) == Ok(r.value.agencies)
      && ParseAt(data, "categories", ParseCategory) == Ok(r.value.categories)
      && ParseAt(data, "contacts", ParseContact) == Ok(r.value.contacts)
      && ParseAt(data, "contact_types", ParseContactType) == Ok(r.value.contactTypes)
      && ParseAt(data, "custom_fields", ParseCustomField) == Ok(r.value.customFields)
      && ParseAt(data, "custom_field_types", ParseCustomFieldType) == Ok(r.value.customFieldTypes)
      && ParseAt(data, "image_types", ParseImageType) == Ok(r.value.imageTypes)
      && ParseAt(data, "intents", ParseIntent) == Ok(r.value.intents)
      && ParseAt(data, "listings", ParseListing) == Ok(r.value.listings)
      && ParseAt(data, "listing_types", ParseListingType) == Ok(r.value.listingTypes)
      && ParseAt(data, "profiles", ParseProfile) == Ok(r.value.profiles)
      && ParseAt(data, "tags", ParseTag) == Ok(r.value.tags)
  {
    var agencies :- ParseAt(data, "agencies", ParseAgency);
    var categories :- ParseAt(data, "categories", ParseCategory);
    var contacts :- ParseAt(data, "contacts", ParseContact);
    var contactTypes :- ParseAt(data, "contact_types", ParseContactType);
    var customFields :- ParseAt(data, "custom_fields", ParseCustomField);
    var fieldTypes :- ParseAt(data, "custom_field_types", ParseCustomFieldType);
    var imageTypes :- ParseAt(data, "image_types", ParseImageType);
    var intents :- ParseAt(data, "intents", ParseIntent);
    var listings :- ParseAt(data, "listings", ParseListing);
    var listingTypes :- ParseAt(data, "listing_types", ParseListingType);
    var profiles :- ParseAt(data, "profiles", ParseProfile);
    var tags :- ParseAt(data, "tags", ParseTag);
    Ok(ModelData(agencies, categories, contacts, contactTypes, customFields, fieldTypes,
                 imageTypes, intents, listings, listingTypes, profiles, tags))
  }

  /** Every element parser rejects a string alike, whatever its text: the
      first thing each does is index it by a key. So an object iterated
      by `ParseList` fails the same way whichever its keys are. */
  lemma StringElementsRejected(s: string)
    ensures ParseAgency(JStr(s)) == ParseAgency(JStr("")) && ParseAgency(JStr(s)).Err?
    ensures ParseCategory(JStr(s)) == ParseCategory(JStr("")) && ParseCategory(JStr(s)).Err?
    ensures ParseContact(JStr(s)) == ParseContact(JStr("")) && ParseContact(JStr(s)).Err?
    ensures ParseContactType(JStr(s)) == ParseContactType(JStr("")) && ParseContactType(JStr(s)).Err?
    ensures ParseCustomField(JStr(s)) == ParseCustomField(JStr("")) && ParseCustomField(JStr(s)).Err?
    ensures ParseCustomFieldType(JStr(s)) == ParseCustomFieldType(JStr("")) && ParseCustomFieldType(JStr(s)).Err?
    ensures ParseCustomFieldValue(JStr(s)) == ParseCustomFieldValue(JStr("")) && ParseCustomFieldValue(JStr(s)).Err?
    ensures ParseDocUrl(JStr(s)) == ParseDocUrl(JStr("")) && ParseDocUrl(JStr(s)).Err?
    ensures ParseImageType(JStr(s)) == ParseImageType(JStr("")) && ParseImageType(JStr(s)).Err?
    ensures ParseIntent(JStr(s)) == ParseIntent(JStr("")) && ParseIntent(JStr(s)).Err?
    ensures ParseListingActivity(JStr(s)) == ParseListingActivity(JStr("")) && ParseListingActivity(JStr(s)).Err?
    ensures ParseListingType(JStr(s)) == ParseListingType(JStr("")) && ParseListingType(JStr(s)).Err?
    ensures ParseProfile(JStr(s)) == ParseProfile(JStr("")) && ParseProfile(JStr(s)).Err?
    ensures ParseScreenshot(JStr(s)) == ParseScreenshot(JStr("")) && ParseScreenshot(JStr(s)).Err?
    ensures ParseTag(JStr(s)) == ParseTag(JStr("")) && ParseTag(JStr(s)).Err?
    ensures ParseListing(JStr(s)) == ParseListing(JStr("")) && ParseListing(JStr(s)).Err?
  {
  }
}
