/** The export of a store's catalogue (`ExportTask` of the export view): the
    exportable, non-private listings, and every entity they reach, each
    collected once under its id. */
module Export {
  import opened Wrappers
  import opened Exceptions
  import opened Json
  import PyDict

  // The object graph the export walks. `data` is what the entity's export
  // serializer projects it to; references the schema allows to be null
  // are `Option`s.

  datatype ImageType = ImageType(id: int, data: Json)
  datatype Image = Image(id: int, imageType: ImageType, data: Json)
  datatype Agency = Agency(id: int, icon: Option<Image>, data: Json)
  datatype Intent = Intent(id: int, icon: Image, data: Json)
  datatype Profile = Profile(id: int, organizations: seq<Agency>, stewardedOrganizations: seq<Agency>, data: Json)
  datatype Category = Category(id: int, data: Json)
  datatype ChangeDetail = ChangeDetail(id: int, data: Json)
  datatype ListingActivity = ListingActivity(id: int, changeDetails: seq<ChangeDetail>, data: Json)
  datatype CustomFieldType = CustomFieldType(id: int, data: Json)
  datatype CustomField = CustomField(id: int, fieldType: CustomFieldType, data: Json)
  datatype CustomFieldValue = CustomFieldValue(customField: CustomField)
  datatype ContactType = ContactType(id: int, data: Json)
  datatype Contact = Contact(id: int, contactType: ContactType, data: Json)
  datatype ListingType = ListingType(id: int, data: Json)
  datatype Tag = Tag(id: int, data: Json)
  datatype Screenshot = Screenshot(smallImage: Image, largeImage: Image)
  datatype Review = Review(author: Profile)
  datatype Listing = Listing(
    id: int, isExportable: bool, isPrivate: bool,
    agency: Agency, listingType: Option<ListingType>,
    smallIcon: Option<Image>, largeIcon: Option<Image>, bannerIcon: Option<Image>, largeBannerIcon: Option<Image>,
    activities: seq<ListingActivity>, categories: seq<Category>, customFields: seq<CustomFieldValue>,
    contacts: seq<Contact>, intents: seq<Intent>, owners: seq<Profile>, tags: seq<Tag>,
    screenshots: seq<Screenshot>, reviews: seq<Review>,
    data: Json)

  type Dict<V> = PyDict.Dict<int, V>

  /** The fourteen dictionaries of an export, by id. */
  datatype Collected = Collected(
    agencies: Dict<Agency>, categories: Dict<Category>, changeDetails: Dict<ChangeDetail>,
    contacts: Dict<Contact>, contactTypes: Dict<ContactType>, customFields: Dict<CustomField>,
    customFieldTypes: Dict<CustomFieldType>, images: Dict<Image>, imageTypes: Dict<ImageType>,
    intents: Dict<Intent>, listingTypes: Dict<ListingType>, listingActivities: Dict<ListingActivity>,
    profiles: Dict<Profile>, tags: Dict<Tag>)

  /** The dictionaries of a fresh `ExportTask`: all empty. */
  function Nothing(): Collected {
    Collected(PyDict.Dict([], map[]), PyDict.Dict([], map[]), PyDict.Dict([], map[]), PyDict.Dict([], map[]), PyDict.Dict([], map[]),
              PyDict.Dict([], map[]), PyDict.Dict([], map[]), PyDict.Dict([], map[]), PyDict.Dict([], map[]), PyDict.Dict([], map[]),
              PyDict.Dict([], map[]), PyDict.Dict([], map[]), PyDict.Dict([], map[]), PyDict.Dict([], map[]))
  }

  /** Nothing collected is trivially well formed and closed. */
  lemma NothingClosed()
    ensures ValidAll(Nothing()) && Closed(Nothing())
  {
  }

  ghost predicate ValidAll(c: Collected) {
    && PyDict.Valid(c.agencies) && PyDict.Valid(c.categories) && PyDict.Valid(c.changeDetails)
    && PyDict.Valid(c.contacts) && PyDict.Valid(c.contactTypes) && PyDict.Valid(c.customFields)
    && PyDict.Valid(c.customFieldTypes) && PyDict.Valid(c.images) && PyDict.Valid(c.imageTypes)
    && PyDict.Valid(c.intents) && PyDict.Valid(c.listingTypes) && PyDict.Valid(c.listingActivities)
    && PyDict.Valid(c.profiles) && PyDict.Valid(c.tags)
  }

  /** `b` keeps every entry of `a` as it was, and `a`'s key order as a
      prefix: entries are only ever added, and the first one wins. */
  ghost predicate Extends<V>(a: Dict<V>, b: Dict<V>) {
    a.keys <= b.keys && forall k :: k in a.items ==> k in b.items && b.items[k] == a.items[k]
  }

  lemma ExtendsTrans<V>(a: Dict<V>, b: Dict<V>, c: Dict<V>)
    requires Extends(a, b) && Extends(b, c)
    ensures Extends(a, c)
  {
  }

  /** Every dictionary of `c` is extended in `d`. */
  ghost predicate Grows(c: Collected, d: Collected) {
    && Extends(c.agencies, d.agencies) && Extends(c.categories, d.categories)
    && Extends(c.changeDetails, d.changeDetails) && Extends(c.contacts, d.contacts)
    && Extends(c.contactTypes, d.contactTypes) && Extends(c.customFields, d.customFields)
    && Extends(c.customFieldTypes, d.customFieldTypes) && Extends(c.images, d.images)
    && Extends(c.imageTypes, d.imageTypes) && Extends(c.intents, d.intents)
    && Extends(c.listingTypes, d.listingTypes) && Extends(c.listingActivities, d.listingActivities)
    && Extends(c.profiles, d.profiles) && Extends(c.tags, d.tags)
  }

  /** Every element's id, as `key` takes it, is collected in `d`. */
  predicate AllIn<T, V>(xs: seq<T>, key: T -> int, d: Dict<V>) {
    forall i :: 0 <= i < |xs| ==> key(xs[i]) in d.items
  }

  /** One more element, whose id is collected, after a prefix whose ids
      were collected before the dictionary grew. */
  lemma AllInGrows<T, V>(xs: seq<T>, key: T -> int, d1: Dict<V>, d2: Dict<V>)
    requires |xs| > 0 && AllIn(xs[..|xs| - 1], key, d1) && Extends(d1, d2) && key(xs[|xs| - 1]) in d2.items
    ensures AllIn(xs, key, d2)
  {
    forall i | 0 <= i < |xs|
      ensures key(xs[i]) in d2.items
    {
      if i < |xs| - 1 {
        assert xs[..|xs| - 1][i] == xs[i];
        var k := key(xs[i]);
        assert k in d1.items;
      }
    }
  }

  lemma AllInExtends<T, V>(xs: seq<T>, key: T -> int, d1: Dict<V>, d2: Dict<V>)
    requires AllIn(xs, key, d1) && Extends(d1, d2)
    ensures AllIn(xs, key, d2)
  {
    forall i | 0 <= i < |xs|
      ensures key(xs[i]) in d2.items
    {
      var k := key(xs[i]);
      assert k in d1.items;
    }
  }

  function AgencyId(x: Agency): int { x.id }
  function DetailId(x: ChangeDetail): int { x.id }
  function ActivityId(x: ListingActivity): int { x.id }
  function CategoryId(x: Category): int { x.id }
  function FieldOfValueId(x: CustomFieldValue): int { x.customField.id }
  function ContactId(x: Contact): int { x.id }
  function IntentId(x: Intent): int { x.id }
  function ProfileId(x: Profile): int { x.id }
  function TagId(x: Tag): int { x.id }
  function SmallImageId(x: Screenshot): int { x.smallImage.id }
  function LargeImageId(x: Screenshot): int { x.largeImage.id }
  function AuthorId(x: Review): int { x.author.id }

  // The closure each `_add_*` keeps, one predicate per reference.

  ghost predicate ImagesClosed(images: Dict<Image>, imageTypes: Dict<ImageType>) {
    forall k :: k in images.items ==> images.items[k].imageType.id in imageTypes.items
  }

  ghost predicate AgencyIconsClosed(agencies: Dict<Agency>, images: Dict<Image>) {
    forall k :: k in agencies.items && agencies.items[k].icon.Some? ==> agencies.items[k].icon.value.id in images.items
  }

  ghost predicate IntentIconsClosed(intents: Dict<Intent>, images: Dict<Image>) {
    forall k :: k in intents.items ==> intents.items[k].icon.id in images.items
  }

  ghost predicate OrgsClosed(profiles: Dict<Profile>, agencies: Dict<Agency>) {
    forall k :: k in profiles.items ==>
      AllIn(profiles.items[k].organizations, AgencyId, agencies)
      && AllIn(profiles.items[k].stewardedOrganizations, AgencyId, agencies)
  }

  ghost predicate FieldTypesClosed(customFields: Dict<CustomField>, types: Dict<CustomFieldType>) {
    forall k :: k in customFields.items ==> customFields.items[k].fieldType.id in types.items
  }

  ghost predicate ContactTypesClosed(contacts: Dict<Contact>, types: Dict<ContactType>) {
    forall k :: k in contacts.items ==> contacts.items[k].contactType.id in types.items
  }

  ghost predicate DetailsClosed(activities: Dict<ListingActivity>, details: Dict<ChangeDetail>) {
    forall k :: k in activities.items ==> AllIn(activities.items[k].changeDetails, DetailId, details)
  }

  /** What every `_add_*` brings in along with its entity is collected:
      each image's type, each agency's and intent's icon, each profile's
      organizations and stewarded organizations, each custom field's type,
      each contact's type and each activity's change details. */
  ghost predicate Closed(c: Collected) {
    && ImagesClosed(c.images, c.imageTypes)
    && AgencyIconsClosed(c.agencies, c.images)
    && IntentIconsClosed(c.intents, c.images)
    && OrgsClosed(c.profiles, c.agencies)
    && FieldTypesClosed(c.customFields, c.customFieldTypes)
    && ContactTypesClosed(c.contacts, c.contactTypes)
    && DetailsClosed(c.listingActivities, c.changeDetails)
  }

  /** `_add_image_type`. */
  function AddImageType(c: Collected, t: ImageType): (r: Collected)
    requires PyDict.Valid(c.imageTypes)
    ensures r == c.(imageTypes := r.imageTypes) && PyDict.Valid(r.imageTypes) && Extends(c.imageTypes, r.imageTypes)
    ensures t.id in r.imageTypes.items
    ensures t.id in c.imageTypes.items ==> r == c
    ensures t.id !in c.imageTypes.items ==> r.imageTypes.items[t.id] == t
  {
    if t.id in c.imageTypes.items then c else c.(imageTypes := PyDict.Put(c.imageTypes, t.id, t))
  }

  /** `_add_image`: a None image is skipped. */
  function AddImage(c: Collected, image: Option<Image>): (r: Collected)
    requires PyDict.Valid(c.images) && PyDict.Valid(c.imageTypes)
    ensures r == c.(images := r.images, imageTypes := r.imageTypes)
    ensures PyDict.Valid(r.images) && PyDict.Valid(r.imageTypes)
    ensures Extends(c.images, r.images) && Extends(c.imageTypes, r.imageTypes)
    ensures ImagesClosed(c.images, c.imageTypes) ==> ImagesClosed(r.images, r.imageTypes)
    ensures image.Some? ==> image.value.id in r.images.items
    ensures image.None? || image.value.id in c.images.items ==> r == c
    ensures image.Some? && image.value.id !in c.images.items ==> r.images.items[image.value.id] == image.value
  {
    match image
    case None => c
    case Some(i) =>
      if i.id in c.images.items then c else AddImageType(c.(images := PyDict.Put(c.images, i.id, i)), i.imageType)
  }

  /** `_add_agency`. */
  function AddAgency(c: Collected, a: Agency): (r: Collected)
    requires PyDict.Valid(c.agencies) && PyDict.Valid(c.images) && PyDict.Valid(c.imageTypes)
    ensures r == c.(agencies := r.agencies, images := r.images, imageTypes := r.imageTypes)
    ensures PyDict.Valid(r.agencies) && PyDict.Valid(r.images) && PyDict.Valid(r.imageTypes)
    ensures Extends(c.agencies, r.agencies) && Extends(c.images, r.images) && Extends(c.imageTypes, r.imageTypes)
    ensures ImagesClosed(c.images, c.imageTypes) ==> ImagesClosed(r.images, r.imageTypes)
    ensures AgencyIconsClosed(c.agencies, c.images) ==> AgencyIconsClosed(r.agencies, r.images)
    ensures a.id in r.agencies.items
    ensures a.id in c.agencies.items ==> r == c
    ensures a.id !in c.agencies.items ==> r.agencies.items[a.id] == a
  {
    if a.id in c.agencies.items then c else AddImage(c.(agencies := PyDict.Put(c.agencies, a.id, a)), a.icon)
  }

  /** `_add_intent`. */
  function AddIntent(c: Collected, x: Intent): (r: Collected)
    requires PyDict.Valid(c.intents) && PyDict.Valid(c.images) && PyDict.Valid(c.imageTypes)
    ensures r == c.(intents := r.intents, images := r.images, imageTypes := r.imageTypes)
    ensures PyDict.Valid(r.intents) && PyDict.Valid(r.images) && PyDict.Valid(r.imageTypes)
    ensures Extends(c.intents, r.intents) && Extends(c.images, r.images) && Extends(c.imageTypes, r.imageTypes)
    ensures ImagesClosed(c.images, c.imageTypes) ==> ImagesClosed(r.images, r.imageTypes)
    ensures IntentIconsClosed(c.intents, c.images) ==> IntentIconsClosed(r.intents, r.images)
    ensures x.id in r.intents.items
    ensures x.id in c.intents.items ==> r == c
    ensures x.id !in c.intents.items ==> r.intents.items[x.id] == x
  {
    if x.id in c.intents.items then c else AddImage(c.(intents := PyDict.Put(c.intents, x.id, x)), Some(x.icon))
  }

  /** The loop of `_add_profile` over organizations: `_add_agency` of each. */
  function AddAgencies(c: Collected, xs: seq<Agency>): (r: Collected)
    requires PyDict.Valid(c.agencies) && PyDict.Valid(c.images) && PyDict.Valid(c.imageTypes)
    ensures r == c.(agencies := r.agencies, images := r.images, imageTypes := r.imageTypes)
    ensures PyDict.Valid(r.agencies) && PyDict.Valid(r.images) && PyDict.Valid(r.imageTypes)
    ensures Extends(c.agencies, r.agencies) && Extends(c.images, r.images) && Extends(c.imageTypes, r.imageTypes)
    ensures ImagesClosed(c.images, c.imageTypes) ==> ImagesClosed(r.images, r.imageTypes)
    ensures AgencyIconsClosed(c.agencies, c.images) ==> AgencyIconsClosed(r.agencies, r.images)
    ensures AllIn(xs, AgencyId, r.agencies)
    decreases |xs|
  {
    if xs == [] then c
    else
      var before := AddAgencies(c, xs[..|xs| - 1]);
      var r := AddAgency(before, xs[|xs| - 1]);
      AllInGrows(xs, AgencyId, before.agencies, r.agencies);
      ExtendsTrans(c.agencies, before.agencies, r.agencies);
      ExtendsTrans(c.images, before.images, r.images);
      ExtendsTrans(c.imageTypes, before.imageTypes, r.imageTypes);
      r
  }

  /** Organizations collected stay collected as the agencies grow. */
  lemma OrgsClosedGrows(profiles: Dict<Profile>, a1: Dict<Agency>, a2: Dict<Agency>)
    requires Extends(a1, a2)
    ensures OrgsClosed(profiles, a1) ==> OrgsClosed(profiles, a2)
  {
    forall k | k in profiles.items && OrgsClosed(profiles, a1)
      ensures AllIn(profiles.items[k].organizations, AgencyId, a2)
      ensures AllIn(profiles.items[k].stewardedOrganizations, AgencyId, a2)
    {
      AllInExtends(profiles.items[k].organizations, AgencyId, a1, a2);
      AllInExtends(profiles.items[k].stewardedOrganizations, AgencyId, a1, a2);
    }
  }

  /** `_add_profile`: the profile, then its organizations, then its
      stewarded organizations. */
  function AddProfile(c: Collected, p: Profile): (r: Collected)
    requires PyDict.Valid(c.profiles) && PyDict.Valid(c.agencies) && PyDict.Valid(c.images) && PyDict.Valid(c.imageTypes)
    ensures r == c.(profiles := r.profiles, agencies := r.agencies, images := r.images, imageTypes := r.imageTypes)
    ensures PyDict.Valid(r.profiles) && PyDict.Valid(r.agencies) && PyDict.Valid(r.images) && PyDict.Valid(r.imageTypes)
    ensures Extends(c.profiles, r.profiles) && Extends(c.agencies, r.agencies)
    ensures Extends(c.images, r.images) && Extends(c.imageTypes, r.imageTypes)
    ensures ImagesClosed(c.images, c.imageTypes) ==> ImagesClosed(r.images, r.imageTypes)
    ensures AgencyIconsClosed(c.agencies, c.images) ==> AgencyIconsClosed(r.agencies, r.images)
    ensures OrgsClosed(c.profiles, c.agencies) ==> OrgsClosed(r.profiles, r.agencies)
    ensures p.id in r.profiles.items
    ensures p.id in c.profiles.items ==> r == c
    ensures p.id !in c.profiles.items ==> r.profiles.items[p.id] == p
  {
    if p.id in c.profiles.items then c
    else
      var c1 := c.(profiles := PyDict.Put(c.profiles, p.id, p));
      var c2 := AddAgencies(c1, p.organizations);
      var r := AddAgencies(c2, p.stewardedOrganizations);
      ExtendsTrans(c.agencies, c2.agencies, r.agencies);
      ExtendsTrans(c.images, c2.images, r.images);
      ExtendsTrans(c.imageTypes, c2.imageTypes, r.imageTypes);
      AllInExtends(p.organizations, AgencyId, c2.agencies, r.agencies);
      OrgsClosedGrows(c.profiles, c.agencies, r.agencies);
      ProfileAddedClosed(c.profiles, r.agencies, p);
      r
  }

  /** A profile whose organizations are collected can join a closed
      dictionary of profiles. */
  lemma ProfileAddedClosed(profiles: Dict<Profile>, agencies: Dict<Agency>, p: Profile)
    requires PyDict.Valid(profiles)
    requires AllIn(p.organizations, AgencyId, agencies) && AllIn(p.stewardedOrganizations, AgencyId, agencies)
    ensures OrgsClosed(profiles, agencies) ==> OrgsClosed(PyDict.Put(profiles, p.id, p), agencies)
  {
  }

  /** `_add_category`. */
  function AddCategory(c: Collected, x: Category): (r: Collected)
    requires PyDict.Valid(c.categories)
    ensures r == c.(categories := r.categories) && PyDict.Valid(r.categories) && Extends(c.categories, r.categories)
    ensures x.id in r.categories.items
    ensures x.id in c.categories.items ==> r == c
    ensures x.id !in c.categories.items ==> r.categories.items[x.id] == x
  {
    if x.id in c.categories.items then c else c.(categories := PyDict.Put(c.categories, x.id, x))
  }

  /** `_add_change_detail`. */
  function AddChangeDetail(c: Collected, x: ChangeDetail): (r: Collected)
    requires PyDict.Valid(c.changeDetails)
    ensures r == c.(changeDetails := r.changeDetails) && PyDict.Valid(r.changeDetails)
    ensures Extends(c.changeDetails, r.changeDetails)
    ensures x.id in r.changeDetails.items
    ensures x.id in c.changeDetails.items ==> r == c
    ensures x.id !in c.changeDetails.items ==> r.changeDetails.items[x.id] == x
  {
    if x.id in c.changeDetails.items then c else c.(changeDetails := PyDict.Put(c.changeDetails, x.id, x))
  }

  /** The loop of `_add_listing_activity` over its change details. */
  function AddChangeDetails(c: Collected, xs: seq<ChangeDetail>): (r: Collected)
    requires PyDict.Valid(c.changeDetails)
    ensures r == c.(changeDetails := r.changeDetails) && PyDict.Valid(r.changeDetails)
    ensures Extends(c.changeDetails, r.changeDetails)
    ensures AllIn(xs, DetailId, r.changeDetails)
    decreases |xs|
  {
    if xs == [] then c
    else
      var before := AddChangeDetails(c, xs[..|xs| - 1]);
      var r := AddChangeDetail(before, xs[|xs| - 1]);
      AllInGrows(xs, DetailId, before.changeDetails, r.changeDetails);
      ExtendsTrans(c.changeDetails, before.changeDetails, r.changeDetails);
      r
  }

  /** Change details collected stay collected as the details grow. */
  lemma DetailsClosedGrows(activities: Dict<ListingActivity>, d1: Dict<ChangeDetail>, d2: Dict<ChangeDetail>)
    requires Extends(d1, d2)
    ensures DetailsClosed(activities, d1) ==> DetailsClosed(activities, d2)
  {
    forall k | k in activities.items && DetailsClosed(activities, d1)
      ensures AllIn(activities.items[k].changeDetails, DetailId, d2)
    {
      AllInExtends(activities.items[k].changeDetails, DetailId, d1, d2);
    }
  }

  /** `_add_listing_activity`: the activity, then its change details. */
  function AddListingActivity(c: Collected, x: ListingActivity): (r: Collected)
    requires PyDict.Valid(c.listingActivities) && PyDict.Valid(c.changeDetails)
    ensures r == c.(listingActivities := r.listingActivities, changeDetails := r.changeDetails)
    ensures PyDict.Valid(r.listingActivities) && PyDict.Valid(r.changeDetails)
    ensures Extends(c.listingActivities, r.listingActivities) && Extends(c.changeDetails, r.changeDetails)
    ensures DetailsClosed(c.listingActivities, c.changeDetails) ==> DetailsClosed(r.listingActivities, r.changeDetails)
    ensures x.id in r.listingActivities.items
    ensures x.id in c.listingActivities.items ==> r == c
    ensures x.id !in c.listingActivities.items ==> r.listingActivities.items[x.id] == x
  {
    if x.id in c.listingActivities.items then c
    else
      var c1 := c.(listingActivities := PyDict.Put(c.listingActivities, x.id, x));
      var r := AddChangeDetails(c1, x.changeDetails);
      DetailsClosedGrows(c.listingActivities, c.changeDetails, r.changeDetails);
      r
  }

  /** `_add_custom_field_type`. */
  function AddCustomFieldType(c: Collected, x: CustomFieldType): (r: Collected)
    requires PyDict.Valid(c.customFieldTypes)
    ensures r == c.(customFieldTypes := r.customFieldTypes) && PyDict.Valid(r.customFieldTypes)
    ensures Extends(c.customFieldTypes, r.customFieldTypes)
    ensures x.id in r.customFieldTypes.items
    ensures x.id in c.customFieldTypes.items ==> r == c
    ensures x.id !in c.customFieldTypes.items ==> r.customFieldTypes.items[x.id] == x
  {
    if x.id in c.customFieldTypes.items then c else c.(customFieldTypes := PyDict.Put(c.customFieldTypes, x.id, x))
  }

  /** `_add_custom_field`: the field, then its type. */
  function AddCustomField(c: Collected, x: CustomField): (r: Collected)
    requires PyDict.Valid(c.customFields) && PyDict.Valid(c.customFieldTypes)
    ensures r == c.(customFields := r.customFields, customFieldTypes := r.customFieldTypes)
    ensures PyDict.Valid(r.customFields) && PyDict.Valid(r.customFieldTypes)
    ensures Extends(c.customFields, r.customFields) && Extends(c.customFieldTypes, r.customFieldTypes)
    ensures FieldTypesClosed(c.customFields, c.customFieldTypes) ==> FieldTypesClosed(r.customFields, r.customFieldTypes)
    ensures x.id in r.customFields.items
    ensures x.id in c.customFields.items ==> r == c
    ensures x.id !in c.customFields.items ==> r.customFields.items[x.id] == x
  {
    if x.id in c.customFields.items then c
    else AddCustomFieldType(c.(customFields := PyDict.Put(c.customFields, x.id, x)), x.fieldType)
  }

  /** `_add_contact_type`. */
  function AddContactType(c: Collected, x: ContactType): (r: Collected)
    requires PyDict.Valid(c.contactTypes)
    ensures r == c.(contactTypes := r.contactTypes) && PyDict.Valid(r.contactTypes)
    ensures Extends(c.contactTypes, r.contactTypes)
    ensures x.id in r.contactTypes.items
    ensures x.id in c.contactTypes.items ==> r == c
    ensures x.id !in c.contactTypes.items ==> r.contactTypes.items[x.id] == x
  {
    if x.id in c.contactTypes.items then c else c.(contactTypes := PyDict.Put(c.contactTypes, x.id, x))
  }

  /** `_add_contact`: the contact, then its type. */
  function AddContact(c: Collected, x: Contact): (r: Collected)
    requires PyDict.Valid(c.contacts) && PyDict.Valid(c.contactTypes)
    ensures r == c.(contacts := r.contacts, contactTypes := r.contactTypes)
    ensures PyDict.Valid(r.contacts) && PyDict.Valid(r.contactTypes)
    ensures Extends(c.contacts, r.contacts) && Extends(c.contactTypes, r.contactTypes)
    ensures ContactTypesClosed(c.contacts, c.contactTypes) ==> ContactTypesClosed(r.contacts, r.contactTypes)
    ensures x.id in r.contacts.items
    ensures x.id in c.contacts.items ==> r == c
    ensures x.id !in c.contacts.items ==> r.contacts.items[x.id] == x
  {
    if x.id in c.contacts.items then c
    else AddContactType(c.(contacts := PyDict.Put(c.contacts, x.id, x)), x.contactType)
  }

  /** `_add_listing_type`: it has no None guard, so a listing without a
      type raises on `listing_type.id`. */
  function AddListingType(c: Collected, x: Option<ListingType>): (r: Result<Collected, Exception>)
    requires PyDict.Valid(c.listingTypes)
    ensures r.Err? <==> x.None?
    ensures r.Err? ==> r.error == AttributeError("'NoneType' object has no attribute 'id'")
    ensures r.Ok? ==>
              && r.value == c.(listingTypes := r.value.listingTypes) && PyDict.Valid(r.value.listingTypes)
              && Extends(c.listingTypes, r.value.listingTypes)
              && x.value.id in r.value.listingTypes.items
              && (x.value.id in c.listingTypes.items ==> r.value == c)
              && (x.value.id !in c.listingTypes.items ==> r.value.listingTypes.items[x.value.id] == x.value)
  {
    match x
    case None => Err(AttributeError("'NoneType' object has no attribute 'id'"))
    case Some(t) =>
      if t.id in c.listingTypes.items then Ok(c) else Ok(c.(listingTypes := PyDict.Put(c.listingTypes, t.id, t)))
  }

  /** `_add_tag`. */
  function AddTag(c: Collected, x: Tag): (r: Collected)
    requires PyDict.Valid(c.tags)
    ensures r == c.(tags := r.tags) && PyDict.Valid(r.tags) && Extends(c.tags, r.tags)
    ensures x.id in r.tags.items
    ensures x.id in c.tags.items ==> r == c
    ensures x.id !in c.tags.items ==> r.tags.items[x.id] == x
  {
    if x.id in c.tags.items then c else c.(tags := PyDict.Put(c.tags, x.id, x))
  }

  /** The loop of `_add_listing_related` over the listing's activities. */
  function AddActivities(c: Collected, xs: seq<ListingActivity>): (r: Collected)
    requires PyDict.Valid(c.listingActivities) && PyDict.Valid(c.changeDetails)
    ensures r == c.(listingActivities := r.listingActivities, changeDetails := r.changeDetails)
    ensures PyDict.Valid(r.listingActivities) && PyDict.Valid(r.changeDetails)
    ensures Extends(c.listingActivities, r.listingActivities) && Extends(c.changeDetails, r.changeDetails)
    ensures DetailsClosed(c.listingActivities, c.changeDetails) ==> DetailsClosed(r.listingActivities, r.changeDetails)
    ensures AllIn(xs, ActivityId, r.listingActivities)
    decreases |xs|
  {
    if xs == [] then c
    else
      var before := AddActivities(c, xs[..|xs| - 1]);
      var x := xs[|xs| - 1];
      var r := AddListingActivity(before, x);
      AllInGrows(xs, ActivityId, before.listingActivities, r.listingActivities);
      ExtendsTrans(c.listingActivities, before.listingActivities, r.listingActivities);
      ExtendsTrans(c.changeDetails, before.changeDetails, r.changeDetails);
      r
  }

  /** The loop over the listing's categories. */
  function AddCategories(c: Collected, xs: seq<Category>): (r: Collected)
    requires PyDict.Valid(c.categories)
    ensures r == c.(categories := r.categories)
    ensures PyDict.Valid(r.categories)
    ensures Extends(c.categories, r.categories)

    ensures AllIn(xs, CategoryId, r.categories)
    decreases |xs|
  {
    if xs == [] then c
    else
      var before := AddCategories(c, xs[..|xs| - 1]);
      var x := xs[|xs| - 1];
      var r := AddCategory(before, x);
      AllInGrows(xs, CategoryId, before.categories, r.categories);
      ExtendsTrans(c.categories, before.categories, r.categories);
      r
  }

  /** The loop over the listing's custom field values: `_add_custom_field` of each one's field. */
  function AddCustomFieldValues(c: Collected, xs: seq<CustomFieldValue>): (r: Collected)
    requires PyDict.Valid(c.customFields) && PyDict.Valid(c.customFieldTypes)
    ensures r == c.(customFields := r.customFields, customFieldTypes := r.customFieldTypes)
    ensures PyDict.Valid(r.customFields) && PyDict.Valid(r.customFieldTypes)
    ensures Extends(c.customFields, r.customFields) && Extends(c.customFieldTypes, r.customFieldTypes)
    ensures FieldTypesClosed(c.customFields, c.customFieldTypes) ==> FieldTypesClosed(r.customFields, r.customFieldTypes)
    ensures AllIn(xs, FieldOfValueId, r.customFields)
    decreases |xs|
  {
    if xs == [] then c
    else
      var before := AddCustomFieldValues(c, xs[..|xs| - 1]);
      var x := xs[|xs| - 1];
      var r := AddCustomField(before, x.customField);
      AllInGrows(xs, FieldOfValueId, before.customFields, r.customFields);
      ExtendsTrans(c.customFields, before.customFields, r.customFields);
      ExtendsTrans(c.customFieldTypes, before.customFieldTypes, r.customFieldTypes);
      r
  }

  /** The loop over the listing's contacts. */
  function AddContacts(c: Collected, xs: seq<Contact>): (r: Collected)
    requires PyDict.Valid(c.contacts) && PyDict.Valid(c.contactTypes)
    ensures r == c.(contacts := r.contacts, contactTypes := r.contactTypes)
    ensures PyDict.Valid(r.contacts) && PyDict.Valid(r.contactTypes)
    ensures Extends(c.contacts, r.contacts) && Extends(c.contactTypes, r.contactTypes)
    ensures ContactTypesClosed(c.contacts, c.contactTypes) ==> ContactTypesClosed(r.contacts, r.contactTypes)
    ensures AllIn(xs, ContactId, r.contacts)
    decreases |xs|
  {
    if xs == [] then c
    else
      var before := AddContacts(c, xs[..|xs| - 1]);
      var x := xs[|xs| - 1];
      var r := AddContact(before, x);
      AllInGrows(xs, ContactId, before.contacts, r.contacts);
      ExtendsTrans(c.contacts, before.contacts, r.contacts);
      ExtendsTrans(c.contactTypes, before.contactTypes, r.contactTypes);
      r
  }

  /** The loop over the listing's intents. */
  function AddIntents(c: Collected, xs: seq<Intent>): (r: Collected)
    requires PyDict.Valid(c.intents) && PyDict.Valid(c.images) && PyDict.Valid(c.imageTypes)
    ensures r == c.(intents := r.intents, images := r.images, imageTypes := r.imageTypes)
    ensures PyDict.Valid(r.intents) && PyDict.Valid(r.images) && PyDict.Valid(r.imageTypes)
    ensures Extends(c.intents, r.intents) && Extends(c.images, r.images) && Extends(c.imageTypes, r.imageTypes)
    ensures ImagesClosed(c.images, c.imageTypes) ==> ImagesClosed(r.images, r.imageTypes)
    ensures IntentIconsClosed(c.intents, c.images) ==> IntentIconsClosed(r.intents, r.images)
    ensures AllIn(xs, IntentId, r.intents)
    decreases |xs|
  {
    if xs == [] then c
    else
      var before := AddIntents(c, xs[..|xs| - 1]);
      var x := xs[|xs| - 1];
      var r := AddIntent(before, x);
      AllInGrows(xs, IntentId, before.intents, r.intents);
      ExtendsTrans(c.intents, before.intents, r.intents);
      ExtendsTrans(c.images, before.images, r.images);
      ExtendsTrans(c.imageTypes, before.imageTypes, r.imageTypes);
      r
  }

  /** The loop over the listing's owners: `_add_profile` of each. */
  function AddOwners(c: Collected, xs: seq<Profile>): (r: Collected)
    requires PyDict.Valid(c.profiles) && PyDict.Valid(c.agencies) && PyDict.Valid(c.images) && PyDict.Valid(c.imageTypes)
    ensures r == c.(profiles := r.profiles, agencies := r.agencies, images := r.images, imageTypes := r.imageTypes)
    ensures PyDict.Valid(r.profiles) && PyDict.Valid(r.agencies) && PyDict.Valid(r.images) && PyDict.Valid(r.imageTypes)
    ensures Extends(c.profiles, r.profiles) && Extends(c.agencies, r.agencies) && Extends(c.images, r.images) && Extends(c.imageTypes, r.imageTypes)
    ensures ImagesClosed(c.images, c.imageTypes) ==> ImagesClosed(r.images, r.imageTypes)
    ensures AgencyIconsClosed(c.agencies, c.images) ==> AgencyIconsClosed(r.agencies, r.images)
    ensures OrgsClosed(c.profiles, c.agencies) ==> OrgsClosed(r.profiles, r.agencies)
    ensures AllIn(xs, ProfileId, r.profiles)
    decreases |xs|
  {
    if xs == [] then c
    else
      var before := AddOwners(c, xs[..|xs| - 1]);
      var x := xs[|xs| - 1];
      var r := AddProfile(before, x);
      AllInGrows(xs, ProfileId, before.profiles, r.profiles);
      ExtendsTrans(c.profiles, before.profiles, r.profiles);
      ExtendsTrans(c.agencies, before.agencies, r.agencies);
      ExtendsTrans(c.images, before.images, r.images);
      ExtendsTrans(c.imageTypes, before.imageTypes, r.imageTypes);
      r
  }

  /** The loop over the listing's tags. */
  function AddTags(c: Collected, xs: seq<Tag>): (r: Collected)
    requires PyDict.Valid(c.tags)
    ensures r == c.(tags := r.tags)
    ensures PyDict.Valid(r.tags)
    ensures Extends(c.tags, r.tags)

    ensures AllIn(xs, TagId, r.tags)
    decreases |xs|
  {
    if xs == [] then c
    else
      var before := AddTags(c, xs[..|xs| - 1]);
      var x := xs[|xs| - 1];
      var r := AddTag(before, x);
      AllInGrows(xs, TagId, before.tags, r.tags);
      ExtendsTrans(c.tags, before.tags, r.tags);
      r
  }

  /** The loop over the listing's screenshots: `_add_image` of the small, then the large image. */
  function AddScreenshots(c: Collected, xs: seq<Screenshot>): (r: Collected)
    requires PyDict.Valid(c.images) && PyDict.Valid(c.imageTypes)
    ensures r == c.(images := r.images, imageTypes := r.imageTypes)
    ensures PyDict.Valid(r.images) && PyDict.Valid(r.imageTypes)
    ensures Extends(c.images, r.images) && Extends(c.imageTypes, r.imageTypes)
    ensures ImagesClosed(c.images, c.imageTypes) ==> ImagesClosed(r.images, r.imageTypes)
    ensures AllIn(xs, SmallImageId, r.images)
    ensures AllIn(xs, LargeImageId, r.images)
    decreases |xs|
  {
    if xs == [] then c
    else
      var before := AddScreenshots(c, xs[..|xs| - 1]);
      var x := xs[|xs| - 1];
      var r := AddImage(AddImage(before, Some(x.smallImage)), Some(x.largeImage));
      AllInGrows(xs, SmallImageId, before.images, r.images);
      AllInGrows(xs, LargeImageId, before.images, r.images);
      ExtendsTrans(c.images, before.images, r.images);
      ExtendsTrans(c.imageTypes, before.imageTypes, r.imageTypes);
      r
  }

  /** The loop over the listing's reviews: `_add_profile` of each author. */
  function AddReviewAuthors(c: Collected, xs: seq<Review>): (r: Collected)
    requires PyDict.Valid(c.profiles) && PyDict.Valid(c.agencies) && PyDict.Valid(c.images) && PyDict.Valid(c.imageTypes)
    ensures r == c.(profiles := r.profiles, agencies := r.agencies, images := r.images, imageTypes := r.imageTypes)
    ensures PyDict.Valid(r.profiles) && PyDict.Valid(r.agencies) && PyDict.Valid(r.images) && PyDict.Valid(r.imageTypes)
    ensures Extends(c.profiles, r.profiles) && Extends(c.agencies, r.agencies) && Extends(c.images, r.images) && Extends(c.imageTypes, r.imageTypes)
    ensures ImagesClosed(c.images, c.imageTypes) ==> ImagesClosed(r.images, r.imageTypes)
    ensures AgencyIconsClosed(c.agencies, c.images) ==> AgencyIconsClosed(r.agencies, r.images)
    ensures OrgsClosed(c.profiles, c.agencies) ==> OrgsClosed(r.profiles, r.agencies)
    ensures AllIn(xs, AuthorId, r.profiles)
    decreases |xs|
  {
    if xs == [] then c
    else
      var before := AddReviewAuthors(c, xs[..|xs| - 1]);
      var x := xs[|xs| - 1];
      var r := AddProfile(before, x.author);
      AllInGrows(xs, AuthorId, before.profiles, r.profiles);
      ExtendsTrans(c.profiles, before.profiles, r.profiles);
      ExtendsTrans(c.agencies, before.agencies, r.agencies);
      ExtendsTrans(c.images, before.images, r.images);
      ExtendsTrans(c.imageTypes, before.imageTypes, r.imageTypes);
      r
  }

  /** The four icons of a listing that are set are collected. */
  predicate IconsIn(l: Listing, images: Dict<Image>) {
    && (l.smallIcon.Some? ==> l.smallIcon.value.id in images.items)
    && (l.largeIcon.Some? ==> l.largeIcon.value.id in images.items)
    && (l.bannerIcon.Some? ==> l.bannerIcon.value.id in images.items)
    && (l.largeBannerIcon.Some? ==> l.largeBannerIcon.value.id in images.items)
  }

  /** `_add_icons`: the small, large, banner and large banner icons. */
  function AddIcons(c: Collected, l: Listing): (r: Collected)
    requires PyDict.Valid(c.images) && PyDict.Valid(c.imageTypes)
    ensures r == c.(images := r.images, imageTypes := r.imageTypes)
    ensures PyDict.Valid(r.images) && PyDict.Valid(r.imageTypes)
    ensures Extends(c.images, r.images) && Extends(c.imageTypes, r.imageTypes)
    ensures ImagesClosed(c.images, c.imageTypes) ==> ImagesClosed(r.images, r.imageTypes)
    ensures IconsIn(l, r.images)
  {
    var c1 := AddImage(c, l.smallIcon);
    var c2 := AddImage(c1, l.largeIcon);
    var c3 := AddImage(c2, l.bannerIcon);
    var r := AddImage(c3, l.largeBannerIcon);
    ExtendsTrans(c.images, c1.images, c2.images);
    ExtendsTrans(c.images, c2.images, c3.images);
    ExtendsTrans(c.images, c3.images, r.images);
    ExtendsTrans(c.imageTypes, c1.imageTypes, c2.imageTypes);
    ExtendsTrans(c.imageTypes, c2.imageTypes, c3.imageTypes);
    ExtendsTrans(c.imageTypes, c3.imageTypes, r.imageTypes);
    r
  }

  /** One stage of `_add_listing_related`: everything stays well formed,
      every dictionary only grows, and the closure is kept. */
  ghost predicate Step(c: Collected, d: Collected) {
    ValidAll(d) && Grows(c, d) && (Closed(c) ==> Closed(d))
  }

  lemma StepTrans(a: Collected, b: Collected, c: Collected)
    requires Step(a, b) && Step(b, c)
    ensures Step(a, c)
  {
    ExtendsTrans(a.agencies, b.agencies, c.agencies);
    ExtendsTrans(a.categories, b.categories, c.categories);
    ExtendsTrans(a.changeDetails, b.changeDetails, c.changeDetails);
    ExtendsTrans(a.contacts, b.contacts, c.contacts);
    ExtendsTrans(a.contactTypes, b.contactTypes, c.contactTypes);
    ExtendsTrans(a.customFields, b.customFields, c.customFields);
    ExtendsTrans(a.customFieldTypes, b.customFieldTypes, c.customFieldTypes);
    ExtendsTrans(a.images, b.images, c.images);
    ExtendsTrans(a.imageTypes, b.imageTypes, c.imageTypes);
    ExtendsTrans(a.intents, b.intents, c.intents);
    ExtendsTrans(a.listingTypes, b.listingTypes, c.listingTypes);
    ExtendsTrans(a.listingActivities, b.listingActivities, c.listingActivities);
    ExtendsTrans(a.profiles, b.profiles, c.profiles);
    ExtendsTrans(a.tags, b.tags, c.tags);
  }

  lemma ActivitiesStep(c: Collected, xs: seq<ListingActivity>)
    requires ValidAll(c)
    ensures Step(c, AddActivities(c, xs))
  {
    var d := AddActivities(c, xs);
    assert d.agencies == c.agencies && d.categories == c.categories && d.contacts == c.contacts && d.contactTypes == c.contactTypes && d.customFields == c.customFields && d.customFieldTypes == c.customFieldTypes && d.images == c.images && d.imageTypes == c.imageTypes && d.intents == c.intents && d.listingTypes == c.listingTypes && d.profiles == c.profiles && d.tags == c.tags;
  }

  lemma CategoriesStep(c: Collected, xs: seq<Category>)
    requires ValidAll(c)
    ensures Step(c, AddCategories(c, xs))
  {
    var d := AddCategories(c, xs);
    assert d.agencies == c.agencies && d.changeDetails == c.changeDetails && d.contacts == c.contacts && d.contactTypes == c.contactTypes && d.customFields == c.customFields && d.customFieldTypes == c.customFieldTypes && d.images == c.images && d.imageTypes == c.imageTypes && d.intents == c.intents && d.listingTypes == c.listingTypes && d.listingActivities == c.listingActivities && d.profiles == c.profiles && d.tags == c.tags;
  }

  lemma CustomFieldValuesStep(c: Collected, xs: seq<CustomFieldValue>)
    requires ValidAll(c)
    ensures Step(c, AddCustomFieldValues(c, xs))
  {
    var d := AddCustomFieldValues(c, xs);
    assert d.agencies == c.agencies && d.categories == c.categories && d.changeDetails == c.changeDetails && d.contacts == c.contacts && d.contactTypes == c.contactTypes && d.images == c.images && d.imageTypes == c.imageTypes && d.intents == c.intents && d.listingTypes == c.listingTypes && d.listingActivities == c.listingActivities && d.profiles == c.profiles && d.tags == c.tags;
  }

  lemma ContactsStep(c: Collected, xs: seq<Contact>)
    requires ValidAll(c)
    ensures Step(c, AddContacts(c, xs))
  {
    var d := AddContacts(c, xs);
    assert d.agencies == c.agencies && d.categories == c.categories && d.changeDetails == c.changeDetails && d.customFields == c.customFields && d.customFieldTypes == c.customFieldTypes && d.images == c.images && d.imageTypes == c.imageTypes && d.intents == c.intents && d.listingTypes == c.listingTypes && d.listingActivities == c.listingActivities && d.profiles == c.profiles && d.tags == c.tags;
  }

  lemma IntentsStep(c: Collected, xs: seq<Intent>)
    requires ValidAll(c)
    ensures Step(c, AddIntents(c, xs))
  {
    var d := AddIntents(c, xs);
    assert d.agencies == c.agencies && d.categories == c.categories && d.changeDetails == c.changeDetails && d.contacts == c.contacts && d.contactTypes == c.contactTypes && d.customFields == c.customFields && d.customFieldTypes == c.customFieldTypes && d.listingTypes == c.listingTypes && d.listingActivities == c.listingActivities && d.profiles == c.profiles && d.tags == c.tags;
  }

  lemma OwnersStep(c: Collected, xs: seq<Profile>)
    requires ValidAll(c)
    ensures Step(c, AddOwners(c, xs))
  {
    var d := AddOwners(c, xs);
    assert d.categories == c.categories && d.changeDetails == c.changeDetails && d.contacts == c.contacts && d.contactTypes == c.contactTypes && d.customFields == c.customFields && d.customFieldTypes == c.customFieldTypes && d.intents == c.intents && d.listingTypes == c.listingTypes && d.listingActivities == c.listingActivities && d.tags == c.tags;
  }

  lemma TagsStep(c: Collected, xs: seq<Tag>)
    requires ValidAll(c)
    ensures Step(c, AddTags(c, xs))
  {
    var d := AddTags(c, xs);
    assert d.agencies == c.agencies && d.categories == c.categories && d.changeDetails == c.changeDetails && d.contacts == c.contacts && d.contactTypes == c.contactTypes && d.customFields == c.customFields && d.customFieldTypes == c.customFieldTypes && d.images == c.images && d.imageTypes == c.imageTypes && d.intents == c.intents && d.listingTypes == c.listingTypes && d.listingActivities == c.listingActivities && d.profiles == c.profiles;
  }

  lemma ScreenshotsStep(c: Collected, xs: seq<Screenshot>)
    requires ValidAll(c)
    ensures Step(c, AddScreenshots(c, xs))
  {
    var d := AddScreenshots(c, xs);
    assert d.agencies == c.agencies && d.categories == c.categories && d.changeDetails == c.changeDetails && d.contacts == c.contacts && d.contactTypes == c.contactTypes && d.customFields == c.customFields && d.customFieldTypes == c.customFieldTypes && d.intents == c.intents && d.listingTypes == c.listingTypes && d.listingActivities == c.listingActivities && d.profiles == c.profiles && d.tags == c.tags;
  }

  lemma ReviewAuthorsStep(c: Collected, xs: seq<Review>)
    requires ValidAll(c)
    ensures Step(c, AddReviewAuthors(c, xs))
  {
    var d := AddReviewAuthors(c, xs);
    assert d.categories == c.categories && d.changeDetails == c.changeDetails && d.contacts == c.contacts && d.contactTypes == c.contactTypes && d.customFields == c.customFields && d.customFieldTypes == c.customFieldTypes && d.intents == c.intents && d.listingTypes == c.listingTypes && d.listingActivities == c.listingActivities && d.tags == c.tags;
  }

  lemma AgencyStep(c: Collected, a: Agency)
    requires ValidAll(c)
    ensures Step(c, AddAgency(c, a))
  {
    var d := AddAgency(c, a);
    assert d.categories == c.categories && d.changeDetails == c.changeDetails && d.contacts == c.contacts && d.contactTypes == c.contactTypes && d.customFields == c.customFields && d.customFieldTypes == c.customFieldTypes && d.intents == c.intents && d.listingTypes == c.listingTypes && d.listingActivities == c.listingActivities && d.profiles == c.profiles && d.tags == c.tags;
  }

  lemma IconsStep(c: Collected, l: Listing)
    requires ValidAll(c)
    ensures Step(c, AddIcons(c, l))
  {
    var d := AddIcons(c, l);
    assert d.agencies == c.agencies && d.categories == c.categories && d.changeDetails == c.changeDetails && d.contacts == c.contacts && d.contactTypes == c.contactTypes && d.customFields == c.customFields && d.customFieldTypes == c.customFieldTypes && d.intents == c.intents && d.listingTypes == c.listingTypes && d.listingActivities == c.listingActivities && d.profiles == c.profiles && d.tags == c.tags;
  }

  /** Everything `_add_listing_related` collects for one listing, up to and
      excluding its listing type. */
  ghost predicate RelatedIn(c: Collected, l: Listing) {
    FirstIn(c, l) && RestIn(c, l)
  }

  /** Everything `_add_listing_related` collects for one listing. */
  ghost predicate ListingCollected(c: Collected, l: Listing) {
    RelatedIn(c, l) && l.listingType.Some? && l.listingType.value.id in c.listingTypes.items
  }

  /** What a listing brings in stays collected as the dictionaries grow. */
  lemma RelatedInGrows(c: Collected, d: Collected, l: Listing)
    requires RelatedIn(c, l) && Grows(c, d)
    ensures RelatedIn(d, l)
  {
    AllInExtends(l.activities, ActivityId, c.listingActivities, d.listingActivities);
    AllInExtends(l.categories, CategoryId, c.categories, d.categories);
    AllInExtends(l.customFields, FieldOfValueId, c.customFields, d.customFields);
    AllInExtends(l.contacts, ContactId, c.contacts, d.contacts);
    AllInExtends(l.intents, IntentId, c.intents, d.intents);
    AllInExtends(l.owners, ProfileId, c.profiles, d.profiles);
    AllInExtends(l.tags, TagId, c.tags, d.tags);
    AllInExtends(l.screenshots, SmallImageId, c.images, d.images);
    AllInExtends(l.screenshots, LargeImageId, c.images, d.images);
    AllInExtends(l.reviews, AuthorId, c.profiles, d.profiles);
  }

  lemma ListingCollectedGrows(c: Collected, d: Collected, l: Listing)
    requires ListingCollected(c, l) && Grows(c, d)
    ensures ListingCollected(d, l)
  {
    RelatedInGrows(c, d, l);
  }

  /** The first loops of `_add_listing_related`: activities, categories,
      custom field values, contacts and intents. */
  function RelatedFirst(c: Collected, l: Listing): (r: Collected)
    requires ValidAll(c)
  {
    var c1 := AddActivities(c, l.activities);
    var c2 := AddCategories(c1, l.categories);
    var c3 := AddCustomFieldValues(c2, l.customFields);
    var c4 := AddContacts(c3, l.contacts);
    AddIntents(c4, l.intents)
  }

  /** The rest of `_add_listing_related` before the listing type: owners,
      tags, screenshots, review authors, the agency and the icons. */
  function RelatedRest(c: Collected, l: Listing): (r: Collected)
    requires ValidAll(c)
  {
    var c6 := AddOwners(c, l.owners);
    var c7 := AddTags(c6, l.tags);
    var c8 := AddScreenshots(c7, l.screenshots);
    var c9 := AddReviewAuthors(c8, l.reviews);
    var c10 := AddAgency(c9, l.agency);
    AddIcons(c10, l)
  }

  /** Everything `_add_listing_related` does before the listing type. */
  function Related(c: Collected, l: Listing): (r: Collected)
    requires ValidAll(c)
    ensures ValidAll(r)
  {
    RelatedFirstCollects(c, l);
    RelatedRestCollects(RelatedFirst(c, l), l);
    RelatedRest(RelatedFirst(c, l), l)
  }

  ghost predicate FirstIn(c: Collected, l: Listing) {
    && AllIn(l.activities, ActivityId, c.listingActivities)
    && AllIn(l.categories, CategoryId, c.categories)
    && AllIn(l.customFields, FieldOfValueId, c.customFields)
    && AllIn(l.contacts, ContactId, c.contacts)
    && AllIn(l.intents, IntentId, c.intents)
  }

  lemma RelatedFirstCollects(c: Collected, l: Listing)
    requires ValidAll(c)
    ensures Step(c, RelatedFirst(c, l)) && FirstIn(RelatedFirst(c, l), l)
  {
    var c1 := AddActivities(c, l.activities);
    var c2 := AddCategories(c1, l.categories);
    var c3 := AddCustomFieldValues(c2, l.customFields);
    var c4 := AddContacts(c3, l.contacts);
    var r := AddIntents(c4, l.intents);
    ActivitiesStep(c, l.activities);
    CategoriesStep(c1, l.categories);
    CustomFieldValuesStep(c2, l.customFields);
    ContactsStep(c3, l.contacts);
    IntentsStep(c4, l.intents);
    StepTrans(c3, c4, r);
    StepTrans(c2, c3, r);
    StepTrans(c1, c2, r);
    StepTrans(c, c1, r);
    AllInExtends(l.activities, ActivityId, c1.listingActivities, r.listingActivities);
    AllInExtends(l.categories, CategoryId, c2.categories, r.categories);
    AllInExtends(l.customFields, FieldOfValueId, c3.customFields, r.customFields);
    AllInExtends(l.contacts, ContactId, c4.contacts, r.contacts);
  }

  ghost predicate RestIn(c: Collected, l: Listing) {
    && AllIn(l.owners, ProfileId, c.profiles)
    && AllIn(l.tags, TagId, c.tags)
    && AllIn(l.screenshots, SmallImageId, c.images)
    && AllIn(l.screenshots, LargeImageId, c.images)
    && AllIn(l.reviews, AuthorId, c.profiles)
    && l.agency.id in c.agencies.items
    && IconsIn(l, c.images)
  }

  lemma RelatedRestCollects(c: Collected, l: Listing)
    requires ValidAll(c)
    ensures Step(c, RelatedRest(c, l)) && RestIn(RelatedRest(c, l), l)
  {
    var c6 := AddOwners(c, l.owners);
    var c7 := AddTags(c6, l.tags);
    var c8 := AddScreenshots(c7, l.screenshots);
    var c9 := AddReviewAuthors(c8, l.reviews);
    var c10 := AddAgency(c9, l.agency);
    var r := AddIcons(c10, l);
    OwnersStep(c, l.owners);
    TagsStep(c6, l.tags);
    ScreenshotsStep(c7, l.screenshots);
    ReviewAuthorsStep(c8, l.reviews);
    AgencyStep(c9, l.agency);
    IconsStep(c10, l);
    StepTrans(c9, c10, r);
    StepTrans(c8, c9, r);
    StepTrans(c7, c8, r);
    StepTrans(c6, c7, r);
    StepTrans(c, c6, r);
    AllInExtends(l.owners, ProfileId, c6.profiles, r.profiles);
    AllInExtends(l.tags, TagId, c7.tags, r.tags);
    AllInExtends(l.screenshots, SmallImageId, c8.images, r.images);
    AllInExtends(l.screenshots, LargeImageId, c8.images, r.images);
    AllInExtends(l.reviews, AuthorId, c9.profiles, r.profiles);
  }

  /** The stages before the listing type keep the dictionaries growing and
      closed, and collect what the listing refers to. */
  lemma RelatedCollects(c: Collected, l: Listing)
    requires ValidAll(c)
    ensures Step(c, Related(c, l)) && RelatedIn(Related(c, l), l)
  {
    RelatedFirstCollects(c, l);
    var first := RelatedFirst(c, l);
    RelatedRestCollects(first, l);
    var r := RelatedRest(first, l);
    StepTrans(c, first, r);
    AllInExtends(l.activities, ActivityId, first.listingActivities, r.listingActivities);
    AllInExtends(l.categories, CategoryId, first.categories, r.categories);
    AllInExtends(l.customFields, FieldOfValueId, first.customFields, r.customFields);
    AllInExtends(l.contacts, ContactId, first.contacts, r.contacts);
    AllInExtends(l.intents, IntentId, first.intents, r.intents);
  }

  /** `_add_listing_related`: a listing without a listing type raises
      once everything before it has been collected. */
  function AddListingRelated(c: Collected, l: Listing): (r: Result<Collected, Exception>)
    requires ValidAll(c)
    ensures r.Err? <==> l.listingType.None?
    ensures r.Err? ==> r.error == AttributeError("'NoneType' object has no attribute 'id'")
    ensures r.Ok? ==> ValidAll(r.value)
  {
    var before := Related(c, l);
    var r := AddListingType(before, l.listingType);
    if r.Ok? then ListingTypeValid(before, l.listingType); r else r
  }

  /** After `_add_listing_related`, the dictionaries have grown and stay
      closed, and everything the listing refers to is collected. */
  lemma ListingRelatedCollects(c: Collected, l: Listing)
    requires ValidAll(c) && l.listingType.Some?
    ensures Step(c, AddListingRelated(c, l).value) && ListingCollected(AddListingRelated(c, l).value, l)
  {
    RelatedCollects(c, l);
    var before := Related(c, l);
    ListingTypeStep(before, l.listingType);
    StepTrans(c, before, AddListingRelated(c, l).value);
  }

  lemma ListingTypeValid(c: Collected, x: Option<ListingType>)
    requires ValidAll(c) && x.Some?
    ensures ValidAll(AddListingType(c, x).value)
  {
    var d := AddListingType(c, x).value;
    assert d.agencies == c.agencies && d.categories == c.categories && d.changeDetails == c.changeDetails;
    assert d.contacts == c.contacts && d.contactTypes == c.contactTypes && d.customFields == c.customFields;
    assert d.customFieldTypes == c.customFieldTypes && d.images == c.images && d.imageTypes == c.imageTypes;
    assert d.intents == c.intents && d.listingActivities == c.listingActivities;
    assert d.profiles == c.profiles && d.tags == c.tags;
  }

  lemma ListingTypeStep(c: Collected, x: Option<ListingType>)
    requires ValidAll(c) && x.Some?
    ensures Step(c, AddListingType(c, x).value)
  {
    var d := AddListingType(c, x).value;
    assert d.agencies == c.agencies && d.categories == c.categories && d.changeDetails == c.changeDetails;
    assert d.contacts == c.contacts && d.contactTypes == c.contactTypes && d.customFields == c.customFields;
    assert d.customFieldTypes == c.customFieldTypes && d.images == c.images && d.imageTypes == c.imageTypes;
    assert d.intents == c.intents && d.listingActivities == c.listingActivities;
    assert d.profiles == c.profiles && d.tags == c.tags;
  }

  /** The listings `Listing.objects.find_published_for_export()` yields:
      the exportable, non-private ones, in their order. */
  function ExportRoots(all: seq<Listing>): (r: seq<Listing>)
    ensures forall l :: l in r <==> l in all && l.isExportable && !l.isPrivate
    ensures |r| <= |all|
  {
    if all == [] then []
    else
      var rest := ExportRoots(all[..|all| - 1]);
      var l := all[|all| - 1];
      assert all == all[..|all| - 1] + [l];
      if l.isExportable && !l.isPrivate then rest + [l] else rest
  }

  /** The loop of `run` over the roots: the first root without a listing
      type raises. */
  function CollectAll(c: Collected, roots: seq<Listing>): (r: Result<Collected, Exception>)
    requires ValidAll(c)
    ensures r.Ok? ==> ValidAll(r.value)
    decreases |roots|
  {
    if roots == [] then Ok(c)
    else
      var prev := CollectAll(c, roots[..|roots| - 1]);
      if prev.Err? then prev else AddListingRelated(prev.value, roots[|roots| - 1])
  }

  /** One more root adds its related entities to what the earlier roots
      collected. */
  lemma CollectAllStep(c: Collected, roots: seq<Listing>, j: nat)
    requires ValidAll(c) && j < |roots| && CollectAll(c, roots[..j]).Ok?
    ensures CollectAll(c, roots[..j + 1]) == AddListingRelated(CollectAll(c, roots[..j]).value, roots[j])
  {
    var prefix := roots[..j + 1];
    assert prefix[..|prefix| - 1] == roots[..j] && prefix[|prefix| - 1] == roots[j];
    CollectAllUnfold(c, prefix);
  }

  lemma CollectAllUnfold(c: Collected, roots: seq<Listing>)
    requires ValidAll(c) && roots != [] && CollectAll(c, roots[..|roots| - 1]).Ok?
    ensures CollectAll(c, roots) == AddListingRelated(CollectAll(c, roots[..|roots| - 1]).value, roots[|roots| - 1])
  {
  }

  /** Every listing has a listing type. */
  predicate Typed(ls: seq<Listing>)
    decreases |ls|
  {
    ls == [] || (Typed(ls[..|ls| - 1]) && ls[|ls| - 1].listingType.Some?)
  }

  lemma {:induction false} TypedAll(ls: seq<Listing>)
    ensures Typed(ls) <==> forall i :: 0 <= i < |ls| ==> ls[i].listingType.Some?
    decreases |ls|
  {
    if ls != [] {
      var prefix := ls[..|ls| - 1];
      TypedAll(prefix);
      assert forall i :: 0 <= i < |prefix| ==> prefix[i] == ls[i];
    }
  }

  /** `run` fails exactly when some root has no listing type, with the
      error of `_add_listing_type`. */
  lemma {:induction false} CollectAllFails(c: Collected, roots: seq<Listing>)
    requires ValidAll(c)
    ensures CollectAll(c, roots).Err? <==> exists i :: 0 <= i < |roots| && roots[i].listingType.None?
    ensures CollectAll(c, roots).Err? ==> CollectAll(c, roots).error == AttributeError("'NoneType' object has no attribute 'id'")
  {
    CollectAllTyped(c, roots);
    TypedAll(roots);
  }

  lemma {:induction false} CollectAllTyped(c: Collected, roots: seq<Listing>)
    requires ValidAll(c)
    ensures CollectAll(c, roots).Err? <==> !Typed(roots)
    ensures CollectAll(c, roots).Err? ==> CollectAll(c, roots).error == AttributeError("'NoneType' object has no attribute 'id'")
    decreases |roots|
  {
    if roots != [] {
      CollectAllTyped(c, roots[..|roots| - 1]);
    }
  }

  /** After `run`, the dictionaries have grown from the ones it started
      with, and stay closed. */
  lemma {:induction false} CollectAllGrows(c: Collected, roots: seq<Listing>)
    requires ValidAll(c) && CollectAll(c, roots).Ok?
    ensures Step(c, CollectAll(c, roots).value)
    decreases |roots|
  {
    if roots == [] {
      GrowsRefl(c);
    } else {
      var prev := CollectAll(c, roots[..|roots| - 1]);
      assert prev.Ok?;
      CollectAllGrows(c, roots[..|roots| - 1]);
      var r := AddListingRelated(prev.value, roots[|roots| - 1]);
      assert CollectAll(c, roots) == r;
      ListingRelatedCollects(prev.value, roots[|roots| - 1]);
      StepTrans(c, prev.value, r.value);
    }
  }

  /** After `run`, everything each root refers to is collected. */
  lemma {:induction false} CollectAllCovers(c: Collected, roots: seq<Listing>)
    requires ValidAll(c) && CollectAll(c, roots).Ok?
    ensures AllCollected(CollectAll(c, roots).value, roots)
    decreases |roots|
  {
    if roots != [] {
      var prefix := roots[..|roots| - 1];
      var prev := CollectAll(c, prefix);
      assert prev.Ok?;
      CollectAllCovers(c, prefix);
      var r := AddListingRelated(prev.value, roots[|roots| - 1]);
      assert CollectAll(c, roots) == r;
      ListingRelatedCollects(prev.value, roots[|roots| - 1]);
      AllCollectedGrows(prev.value, r.value, prefix);
    }
  }

  lemma GrowsRefl(c: Collected)
    ensures Grows(c, c)
  {
  }

  /** Everything each of the listings refers to is collected. */
  ghost predicate AllCollected(c: Collected, ls: seq<Listing>)
    decreases |ls|
  {
    ls == [] || (AllCollected(c, ls[..|ls| - 1]) && ListingCollected(c, ls[|ls| - 1]))
  }

  lemma {:induction false} AllCollectedEach(c: Collected, ls: seq<Listing>)
    requires AllCollected(c, ls)
    ensures forall i :: 0 <= i < |ls| ==> ListingCollected(c, ls[i])
    decreases |ls|
  {
    if ls != [] {
      var prefix := ls[..|ls| - 1];
      AllCollectedEach(c, prefix);
      forall i | 0 <= i < |ls|
        ensures ListingCollected(c, ls[i])
      {
        if i < |prefix| {
          assert ls[i] == prefix[i];
        }
      }
    }
  }

  lemma {:induction false} AllCollectedGrows(c: Collected, d: Collected, ls: seq<Listing>)
    requires Grows(c, d) && AllCollected(c, ls)
    ensures AllCollected(d, ls)
    decreases |ls|
  {
    if ls != [] {
      AllCollectedGrows(c, d, ls[..|ls| - 1]);
      ListingCollectedGrows(c, d, ls[|ls| - 1]);
    }
  }

  /** A serializer with `many=True`: one projection per element, in order. */
  function Project<V>(vs: seq<V>, data: V -> Json): (r: seq<Json>)
    ensures |r| == |vs| && forall i :: 0 <= i < |vs| ==> r[i] == data(vs[i])
  {
    seq(|vs|, i requires 0 <= i < |vs| => data(vs[i]))
  }

  /** A serializer over `d.values()`: each stored value once, in key order. */
  function Column<V>(d: Dict<V>, data: V -> Json): (r: Json)
    requires PyDict.Valid(d)
    ensures r.JList? && |r.items| == |d.items|
  {
    PyDict.ValuesCount(d);
    JList(Project(PyDict.Values(d), data))
  }

  /** `col` is a list holding, through `data`, the value stored under
      each key of `d`, in insertion order. */
  predicate Listed<V>(col: Json, d: Dict<V>, data: V -> Json) {
    && col.JList? && |col.items| == |d.keys|
    && forall i :: 0 <= i < |d.keys| ==> d.keys[i] in d.items && col.items[i] == data(d.items[d.keys[i]])
  }

  /** The column holds each stored value once, in key order. */
  lemma ColumnValues<V>(d: Dict<V>, data: V -> Json)
    requires PyDict.Valid(d)
    ensures Listed(Column(d, data), d, data)
  {
    PyDict.ValuesCount(d);
  }

  /** The dictionary `serialize` returns: one field per key, `listings`,
      `agencies`, `categories`, `change_details`, `contacts`,
      `contact_types`, `custom_fields`, `custom_field_types`, `images`,
      `image_types`, `intents`, `listing_activities`, `listing_types`,
      `profiles` and `tags`, each a list of serialized entities. */
  datatype Exported = Exported(
    listings: Json,
    agencies: Json,
    categories: Json,
    changeDetails: Json,
    contacts: Json,
    contactTypes: Json,
    customFields: Json,
    customFieldTypes: Json,
    images: Json,
    imageTypes: Json,
    intents: Json,
    listingActivities: Json,
    listingTypes: Json,
    profiles: Json,
    tags: Json)

  /** `serialize`: the listings in order, then each dictionary's values in
      insertion order, each entity once. */
  function Serialize(listings: seq<Listing>, c: Collected): (r: Exported)
    requires ValidAll(c)
    ensures r.listings.JList? && |r.listings.items| == |listings|
    ensures r.agencies.JList? && |r.agencies.items| == |c.agencies.items|
    ensures r.categories.JList? && |r.categories.items| == |c.categories.items|
    ensures r.changeDetails.JList? && |r.changeDetails.items| == |c.changeDetails.items|
    ensures r.contacts.JList? && |r.contacts.items| == |c.contacts.items|
    ensures r.contactTypes.JList? && |r.contactTypes.items| == |c.contactTypes.items|
    ensures r.customFields.JList? && |r.customFields.items| == |c.customFields.items|
    ensures r.customFieldTypes.JList? && |r.customFieldTypes.items| == |c.customFieldTypes.items|
    ensures r.images.JList? && |r.images.items| == |c.images.items|
    ensures r.imageTypes.JList? && |r.imageTypes.items| == |c.imageTypes.items|
    ensures r.intents.JList? && |r.intents.items| == |c.intents.items|
    ensures r.listingActivities.JList? && |r.listingActivities.items| == |c.listingActivities.items|
    ensures r.listingTypes.JList? && |r.listingTypes.items| == |c.listingTypes.items|
    ensures r.profiles.JList? && |r.profiles.items| == |c.profiles.items|
    ensures r.tags.JList? && |r.tags.items| == |c.tags.items|
  {
    Exported(
      JList(Project(listings, (x: Listing) => x.data)),
      Column(c.agencies, (x: Agency) => x.data),
      Column(c.categories, (x: Category) => x.data),
      Column(c.changeDetails, (x: ChangeDetail) => x.data),
      Column(c.contacts, (x: Contact) => x.data),
      Column(c.contactTypes, (x: ContactType) => x.data),
      Column(c.customFields, (x: CustomField) => x.data),
      Column(c.customFieldTypes, (x: CustomFieldType) => x.data),
      Column(c.images, (x: Image) => x.data),
      Column(c.imageTypes, (x: ImageType) => x.data),
      Column(c.intents, (x: Intent) => x.data),
      Column(c.listingActivities, (x: ListingActivity) => x.data),
      Column(c.listingTypes, (x: ListingType) => x.data),
      Column(c.profiles, (x: Profile) => x.data),
      Column(c.tags, (x: Tag) => x.data))
  }

  lemma PrefixStep<T>(xs: seq<T>, j: nat)
    requires j < |xs|
    ensures xs[..j + 1][..j] == xs[..j] && xs[..j + 1][j] == xs[j]
  {
  }

  lemma PrefixWhole<T>(xs: seq<T>)
    ensures xs[..|xs|] == xs
  {
  }
}
