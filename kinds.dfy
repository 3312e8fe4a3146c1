/** The entity kinds (Django model classes) that take part in a cross-store
    import or export. */
module Kinds {

  datatype Kind =
    | ImageTypeKind | CategoryKind | ChangeDetailKind | ContactTypeKind | CustomFieldTypeKind
    | ListingTypeKind | TagKind | CustomFieldKind | ContactKind | ImageKind | AgencyKind
    | IntentKind | ProfileKind | ListingKind | ListingActivityKind
    | DocUrlKind | ReviewKind | ScreenshotKind | CustomFieldValueKind

  /** `cls.__name__`, which error records carry as their "type". */
  function ClassName(k: Kind): string {
    match k
    case ImageTypeKind => "ImageType"
    case CategoryKind => "Category"
    case ChangeDetailKind => "ChangeDetail"
    case ContactTypeKind => "ContactType"
    case CustomFieldTypeKind => "CustomFieldType"
    case ListingTypeKind => "ListingType"
    case TagKind => "Tag"
    case CustomFieldKind => "CustomField"
    case ContactKind => "Contact"
    case ImageKind => "Image"
    case AgencyKind => "Agency"
    case IntentKind => "Intent"
    case ProfileKind => "Profile"
    case ListingKind => "Listing"
    case ListingActivityKind => "ListingActivity"
    case DocUrlKind => "DocUrl"
    case ReviewKind => "Review"
    case ScreenshotKind => "Screenshot"
    case CustomFieldValueKind => "CustomFieldValue"
  }

  /** The kind's place in the import run: the top-level kinds in the order
      they are imported, the kinds embedded in a listing after all of them. */
  function Rank(k: Kind): nat {
    match k
    case ImageTypeKind => 0
    case CategoryKind => 1
    case ChangeDetailKind => 2
    case ContactTypeKind => 3
    case CustomFieldTypeKind => 4
    case ListingTypeKind => 5
    case TagKind => 6
    case CustomFieldKind => 7
    case ContactKind => 8
    case ImageKind => 9
    case AgencyKind => 10
    case IntentKind => 11
    case ProfileKind => 12
    case ListingKind => 13
    case ListingActivityKind => 14
    case DocUrlKind | ReviewKind | ScreenshotKind | CustomFieldValueKind => 15
  }
}
