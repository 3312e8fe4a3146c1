/** `ExportTask` of the export view as the object the source has: the
    listings to export and fourteen dictionaries, filled in place by the
    `_add_*` methods. Each method is proved to leave exactly the state the
    corresponding function of `Export` computes. */
module ExportTasks {
  import opened Wrappers
  import opened Exceptions
  import opened Json
  import PyDict
  import opened Export

  class ExportTask {
    var listings: seq<Listing>
    var agencies: Dict<Agency>
    var categories: Dict<Category>
    var changeDetails: Dict<ChangeDetail>
    var contacts: Dict<Contact>
    var contactTypes: Dict<ContactType>
    var customFields: Dict<CustomField>
    var customFieldTypes: Dict<CustomFieldType>
    var images: Dict<Image>
    var imageTypes: Dict<ImageType>
    var intents: Dict<Intent>
    var listingTypes: Dict<ListingType>
    var listingActivities: Dict<ListingActivity>
    var profiles: Dict<Profile>
    var tags: Dict<Tag>

    /** The fourteen dictionaries, as one value. */
    function Contents(): Collected
      reads this
    {
      Collected(agencies, categories, changeDetails, contacts, contactTypes, customFields, customFieldTypes, images, imageTypes, intents, listingTypes, listingActivities, profiles, tags)
    }

    /** `__init__`: no listings and every dictionary empty. */
    constructor()
      ensures listings == [] && Contents() == Nothing()
    {
      listings := [];
      agencies := PyDict.Empty();
      categories := PyDict.Empty();
      changeDetails := PyDict.Empty();
      contacts := PyDict.Empty();
      contactTypes := PyDict.Empty();
      customFields := PyDict.Empty();
      customFieldTypes := PyDict.Empty();
      images := PyDict.Empty();
      imageTypes := PyDict.Empty();
      intents := PyDict.Empty();
      listingTypes := PyDict.Empty();
      listingActivities := PyDict.Empty();
      profiles := PyDict.Empty();
      tags := PyDict.Empty();
    }

    /** `_add_image_type`. */
    method AddImageType(t: ImageType)
      requires PyDict.Valid(imageTypes)
      modifies this
      ensures Contents() == Export.AddImageType(old(Contents()), t) && listings == old(listings)
    {
      if t.id !in imageTypes.items {
        imageTypes := PyDict.Put(imageTypes, t.id, t);
      }
    }

    /** `_add_image`: a None image is skipped. */
    method AddImage(image: Option<Image>)
      requires PyDict.Valid(images) && PyDict.Valid(imageTypes)
      modifies this
      ensures Contents() == Export.AddImage(old(Contents()), image) && listings == old(listings)
    {
      if image.Some? && image.value.id !in images.items {
        images := PyDict.Put(images, image.value.id, image.value);
        AddImageType(image.value.imageType);
      }
    }

    /** `_add_agency`. */
    method AddAgency(a: Agency)
      requires PyDict.Valid(agencies) && PyDict.Valid(images) && PyDict.Valid(imageTypes)
      modifies this
      ensures Contents() == Export.AddAgency(old(Contents()), a) && listings == old(listings)
    {
      if a.id !in agencies.items {
        agencies := PyDict.Put(agencies, a.id, a);
        AddImage(a.icon);
      }
    }

    /** `_add_intent`. */
    method AddIntent(x: Intent)
      requires PyDict.Valid(intents) && PyDict.Valid(images) && PyDict.Valid(imageTypes)
      modifies this
      ensures Contents() == Export.AddIntent(old(Contents()), x) && listings == old(listings)
    {
      if x.id !in intents.items {
        intents := PyDict.Put(intents, x.id, x);
        AddImage(Some(x.icon));
      }
    }

    /** `_add_profile`: the profile, then its organizations, then its
        stewarded organizations. */
    method AddProfile(p: Profile)
      requires PyDict.Valid(profiles) && PyDict.Valid(agencies) && PyDict.Valid(images) && PyDict.Valid(imageTypes)
      modifies this
      ensures Contents() == Export.AddProfile(old(Contents()), p) && listings == old(listings)
    {
      if p.id !in profiles.items {
        profiles := PyDict.Put(profiles, p.id, p);
        AddAgencies(p.organizations);
        AddAgencies(p.stewardedOrganizations);
      }
    }

    /** `_add_category`. */
    method AddCategory(x: Category)
      requires PyDict.Valid(categories)
      modifies this
      ensures Contents() == Export.AddCategory(old(Contents()), x) && listings == old(listings)
    {
      if x.id !in categories.items {
        categories := PyDict.Put(categories, x.id, x);
      }
    }

    /** `_add_change_detail`. */
    method AddChangeDetail(x: ChangeDetail)
      requires PyDict.Valid(changeDetails)
      modifies this
      ensures Contents() == Export.AddChangeDetail(old(Contents()), x) && listings == old(listings)
    {
      if x.id !in changeDetails.items {
        changeDetails := PyDict.Put(changeDetails, x.id, x);
      }
    }

    /** `_add_listing_activity`: the activity, then its change details. */
    method AddListingActivity(x: ListingActivity)
      requires PyDict.Valid(listingActivities) && PyDict.Valid(changeDetails)
      modifies this
      ensures Contents() == Export.AddListingActivity(old(Contents()), x) && listings == old(listings)
    {
      if x.id !in listingActivities.items {
        listingActivities := PyDict.Put(listingActivities, x.id, x);
        AddChangeDetails(x.changeDetails);
      }
    }

    /** `_add_custom_field_type`. */
    method AddCustomFieldType(x: CustomFieldType)
      requires PyDict.Valid(customFieldTypes)
      modifies this
      ensures Contents() == Export.AddCustomFieldType(old(Contents()), x) && listings == old(listings)
    {
      if x.id !in customFieldTypes.items {
        customFieldTypes := PyDict.Put(customFieldTypes, x.id, x);
      }
    }

    /** `_add_custom_field`: the field, then its type. */
    method AddCustomField(x: CustomField)
      requires PyDict.Valid(customFields) && PyDict.Valid(customFieldTypes)
      modifies this
      ensures Contents() == Export.AddCustomField(old(Contents()), x) && listings == old(listings)
    {
      if x.id !in customFields.items {
        customFields := PyDict.Put(customFields, x.id, x);
        AddCustomFieldType(x.fieldType);
      }
    }

    /** `_add_contact_type`. */
    method AddContactType(x: ContactType)
      requires PyDict.Valid(contactTypes)
      modifies this
      ensures Contents() == Export.AddContactType(old(Contents()), x) && listings == old(listings)
    {
      if x.id !in contactTypes.items {
        contactTypes := PyDict.Put(contactTypes, x.id, x);
      }
    }

    /** `_add_contact`: the contact, then its type. */
    method AddContact(x: Contact)
      requires PyDict.Valid(contacts) && PyDict.Valid(contactTypes)
      modifies this
      ensures Contents() == Export.AddContact(old(Contents()), x) && listings == old(listings)
    {
      if x.id !in contacts.items {
        contacts := PyDict.Put(contacts, x.id, x);
        AddContactType(x.contactType);
      }
    }

    /** `_add_tag`. */
    method AddTag(x: Tag)
      requires PyDict.Valid(tags)
      modifies this
      ensures Contents() == Export.AddTag(old(Contents()), x) && listings == old(listings)
    {
      if x.id !in tags.items {
        tags := PyDict.Put(tags, x.id, x);
      }
    }

    /** `_add_icons`: the small, large, banner and large banner icons. */
    method AddIcons(l: Listing)
      requires PyDict.Valid(images) && PyDict.Valid(imageTypes)
      modifies this
      ensures Contents() == Export.AddIcons(old(Contents()), l) && listings == old(listings)
    {
      AddImage(l.smallIcon);
      AddImage(l.largeIcon);
      AddImage(l.bannerIcon);
      AddImage(l.largeBannerIcon);
    }

    /** One of the loops of `_add_profile` over its organizations. */
    method AddAgencies(xs: seq<Agency>)
      requires PyDict.Valid(agencies) && PyDict.Valid(images) && PyDict.Valid(imageTypes)
      modifies this
      ensures Contents() == Export.AddAgencies(old(Contents()), xs) && listings == old(listings)
    {
      ghost var c := Contents();
      for j := 0 to |xs|
        invariant Contents() == Export.AddAgencies(c, xs[..j]) && listings == old(listings)
      {
        PrefixStep(xs, j);
        AddAgency(xs[j]);
      }
      PrefixWhole(xs);
    }

    /** The loop of `_add_listing_activity` over its change details. */
    method AddChangeDetails(xs: seq<ChangeDetail>)
      requires PyDict.Valid(changeDetails)
      modifies this
      ensures Contents() == Export.AddChangeDetails(old(Contents()), xs) && listings == old(listings)
    {
      ghost var c := Contents();
      for j := 0 to |xs|
        invariant Contents() == Export.AddChangeDetails(c, xs[..j]) && listings == old(listings)
      {
        PrefixStep(xs, j);
        AddChangeDetail(xs[j]);
      }
      PrefixWhole(xs);
    }

    /** The loop of `_add_listing_related` over the activities. */
    method AddActivities(xs: seq<ListingActivity>)
      requires PyDict.Valid(listingActivities) && PyDict.Valid(changeDetails)
      modifies this
      ensures Contents() == Export.AddActivities(old(Contents()), xs) && listings == old(listings)
    {
      ghost var c := Contents();
      for j := 0 to |xs|
        invariant Contents() == Export.AddActivities(c, xs[..j]) && listings == old(listings)
      {
        PrefixStep(xs, j);
        AddListingActivity(xs[j]);
      }
      PrefixWhole(xs);
    }

    /** The loop over the categories. */
    method AddCategories(xs: seq<Category>)
      requires PyDict.Valid(categories)
      modifies this
      ensures Contents() == Export.AddCategories(old(Contents()), xs) && listings == old(listings)
    {
      ghost var c := Contents();
      for j := 0 to |xs|
        invariant Contents() == Export.AddCategories(c, xs[..j]) && listings == old(listings)
      {
        PrefixStep(xs, j);
        AddCategory(xs[j]);
      }
      PrefixWhole(xs);
    }

    /** The loop over the custom field values. */
    method AddCustomFieldValues(xs: seq<CustomFieldValue>)
      requires PyDict.Valid(customFields) && PyDict.Valid(customFieldTypes)
      modifies this
      ensures Contents() == Export.AddCustomFieldValues(old(Contents()), xs) && listings == old(listings)
    {
      ghost var c := Contents();
      for j := 0 to |xs|
        invariant Contents() == Export.AddCustomFieldValues(c, xs[..j]) && listings == old(listings)
      {
        PrefixStep(xs, j);
        AddCustomField(xs[j].customField);
      }
      PrefixWhole(xs);
    }

    /** The loop over the contacts. */
    method AddContacts(xs: seq<Contact>)
      requires PyDict.Valid(contacts) && PyDict.Valid(contactTypes)
      modifies this
      ensures Contents() == Export.AddContacts(old(Contents()), xs) && listings == old(listings)
    {
      ghost var c := Contents();
      for j := 0 to |xs|
        invariant Contents() == Export.AddContacts(c, xs[..j]) && listings == old(listings)
      {
        PrefixStep(xs, j);
        AddContact(xs[j]);
      }
      PrefixWhole(xs);
    }

    /** The loop over the intents. */
    method AddIntents(xs: seq<Intent>)
      requires PyDict.Valid(intents) && PyDict.Valid(images) && PyDict.Valid(imageTypes)
      modifies this
      ensures Contents() == Export.AddIntents(old(Contents()), xs) && listings == old(listings)
    {
      ghost var c := Contents();
      for j := 0 to |xs|
        invariant Contents() == Export.AddIntents(c, xs[..j]) && listings == old(listings)
      {
        PrefixStep(xs, j);
        AddIntent(xs[j]);
      }
      PrefixWhole(xs);
    }

    /** The loop over the owners. */
    method AddOwners(xs: seq<Profile>)
      requires PyDict.Valid(profiles) && PyDict.Valid(agencies) && PyDict.Valid(images) && PyDict.Valid(imageTypes)
      modifies this
      ensures Contents() == Export.AddOwners(old(Contents()), xs) && listings == old(listings)
    {
      ghost var c := Contents();
      for j := 0 to |xs|
        invariant Contents() == Export.AddOwners(c, xs[..j]) && listings == old(listings)
      {
        PrefixStep(xs, j);
        AddProfile(xs[j]);
      }
      PrefixWhole(xs);
    }

    /** The loop over the tags. */
    method AddTags(xs: seq<Tag>)
      requires PyDict.Valid(tags)
      modifies this
      ensures Contents() == Export.AddTags(old(Contents()), xs) && listings == old(listings)
    {
      ghost var c := Contents();
      for j := 0 to |xs|
        invariant Contents() == Export.AddTags(c, xs[..j]) && listings == old(listings)
      {
        PrefixStep(xs, j);
        AddTag(xs[j]);
      }
      PrefixWhole(xs);
    }

    /** The loop over the screenshots: small image, then large image. */
    method AddScreenshots(xs: seq<Screenshot>)
      requires PyDict.Valid(images) && PyDict.Valid(imageTypes)
      modifies this
      ensures Contents() == Export.AddScreenshots(old(Contents()), xs) && listings == old(listings)
    {
      ghost var c := Contents();
      for j := 0 to |xs|
        invariant Contents() == Export.AddScreenshots(c, xs[..j]) && listings == old(listings)
      {
        PrefixStep(xs, j);
        AddImage(Some(xs[j].smallImage));
        AddImage(Some(xs[j].largeImage));
      }
      PrefixWhole(xs);
    }

    /** The loop over the reviews: each author's profile. */
    method AddReviewAuthors(xs: seq<Review>)
      requires PyDict.Valid(profiles) && PyDict.Valid(agencies) && PyDict.Valid(images) && PyDict.Valid(imageTypes)
      modifies this
      ensures Contents() == Export.AddReviewAuthors(old(Contents()), xs) && listings == old(listings)
    {
      ghost var c := Contents();
      for j := 0 to |xs|
        invariant Contents() == Export.AddReviewAuthors(c, xs[..j]) && listings == old(listings)
      {
        PrefixStep(xs, j);
        AddProfile(xs[j].author);
      }
      PrefixWhole(xs);
    }

    /** `_add_listing_type`: no None guard, so a listing without a type
        raises on `listing_type.id`. */
    method AddListingType(x: Option<ListingType>) returns (r: Result<(), Exception>)
      requires PyDict.Valid(listingTypes)
      modifies this
      ensures listings == old(listings)
      ensures r.Ok? ==> Export.AddListingType(old(Contents()), x) == Ok(Contents())
      ensures r.Err? ==> Export.AddListingType(old(Contents()), x) == Err(r.error) && Contents() == old(Contents())
    {
      if x.None? {
        return Err(AttributeError("'NoneType' object has no attribute 'id'"));
      }
      if x.value.id !in listingTypes.items {
        listingTypes := PyDict.Put(listingTypes, x.value.id, x.value);
      }
      r := Ok(());
    }

    /** `_add_listing_related`: everything the listing refers to, in the
        source's order; a missing listing type raises after the rest has
        been collected. */
    method AddListingRelated(l: Listing) returns (r: Result<(), Exception>)
      requires ValidAll(Contents())
      modifies this
      ensures listings == old(listings)
      ensures r.Ok? ==> Export.AddListingRelated(old(Contents()), l) == Ok(Contents())
      ensures r.Err? ==> Export.AddListingRelated(old(Contents()), l) == Err(r.error) && Contents() == Related(old(Contents()), l)
    {
      ghost var c := Contents();
      AddActivities(l.activities);
      AddCategories(l.categories);
      AddCustomFieldValues(l.customFields);
      AddContacts(l.contacts);
      AddIntents(l.intents);
      assert Contents() == RelatedFirst(c, l);
      RelatedFirstCollects(c, l);
      ghost var first := Contents();
      AddOwners(l.owners);
      AddTags(l.tags);
      AddScreenshots(l.screenshots);
      AddReviewAuthors(l.reviews);
      AddAgency(l.agency);
      AddIcons(l);
      assert Contents() == RelatedRest(first, l);
      r := AddListingType(l.listingType);
    }

    /** `run`: the exportable, non-private listings become the roots, and
        each root's related entities are collected; the first root without
        a listing type raises, leaving what was collected so far. */
    method Run(all: seq<Listing>) returns (r: Result<(), Exception>)
      requires ValidAll(Contents())
      modifies this
      ensures listings == ExportRoots(all)
      ensures r.Ok? ==> CollectAll(old(Contents()), listings) == Ok(Contents())
      ensures r.Err? ==> exists i :: 0 <= i < |listings| && listings[i].listingType.None?
      ensures r.Err? ==> r.error == AttributeError("'NoneType' object has no attribute 'id'")
    {
      listings := ExportRoots(all);
      ghost var c := Contents();
      for j := 0 to |listings|
        invariant listings == ExportRoots(all)
        invariant CollectAll(c, listings[..j]) == Ok(Contents())
        invariant ValidAll(Contents())
      {
        r := RootStep(c, listings, j);
        if r.Err? {
          return;
        }
      }
      PrefixWhole(listings);
      r := Ok(());
    }

    /** Root `j` of the loop of `run`. */
    method RootStep(ghost c: Collected, roots: seq<Listing>, j: nat) returns (r: Result<(), Exception>)
      requires ValidAll(c) && j < |roots| && CollectAll(c, roots[..j]) == Ok(Contents())
      modifies this
      ensures listings == old(listings)
      ensures r.Ok? ==> CollectAll(c, roots[..j + 1]) == Ok(Contents()) && ValidAll(Contents())
      ensures r.Err? ==> roots[j].listingType.None? && r.error == AttributeError("'NoneType' object has no attribute 'id'")
    {
      CollectAllStep(c, roots, j);
      r := AddListingRelated(roots[j]);
    }

    /** `serialize`: the listings in order, then each dictionary's values
        in insertion order. */
    method Serialize() returns (r: Exported)
      requires ValidAll(Contents())
      ensures r.listings.JList? && |r.listings.items| == |listings|
              && forall i :: 0 <= i < |listings| ==> r.listings.items[i] == listings[i].data
      ensures Listed(r.agencies, agencies, (x: Agency) => x.data)
      ensures Listed(r.categories, categories, (x: Category) => x.data)
      ensures Listed(r.changeDetails, changeDetails, (x: ChangeDetail) => x.data)
      ensures Listed(r.contacts, contacts, (x: Contact) => x.data)
      ensures Listed(r.contactTypes, contactTypes, (x: ContactType) => x.data)
      ensures Listed(r.customFields, customFields, (x: CustomField) => x.data)
      ensures Listed(r.customFieldTypes, customFieldTypes, (x: CustomFieldType) => x.data)
      ensures Listed(r.images, images, (x: Image) => x.data)
      ensures Listed(r.imageTypes, imageTypes, (x: ImageType) => x.data)
      ensures Listed(r.intents, intents, (x: Intent) => x.data)
      ensures Listed(r.listingActivities, listingActivities, (x: ListingActivity) => x.data)
      ensures Listed(r.listingTypes, listingTypes, (x: ListingType) => x.data)
      ensures Listed(r.profiles, profiles, (x: Profile) => x.data)
      ensures Listed(r.tags, tags, (x: Tag) => x.data)
    {
      r := Export.Serialize(listings, Contents());
      ColumnValues(agencies, (x: Agency) => x.data);
      ColumnValues(categories, (x: Category) => x.data);
      ColumnValues(changeDetails, (x: ChangeDetail) => x.data);
      ColumnValues(contacts, (x: Contact) => x.data);
      ColumnValues(contactTypes, (x: ContactType) => x.data);
      ColumnValues(customFields, (x: CustomField) => x.data);
      ColumnValues(customFieldTypes, (x: CustomFieldType) => x.data);
      ColumnValues(images, (x: Image) => x.data);
      ColumnValues(imageTypes, (x: ImageType) => x.data);
      ColumnValues(intents, (x: Intent) => x.data);
      ColumnValues(listingActivities, (x: ListingActivity) => x.data);
      ColumnValues(listingTypes, (x: ListingType) => x.data);
      ColumnValues(profiles, (x: Profile) => x.data);
      ColumnValues(tags, (x: Tag) => x.data);
    }
  }
}
