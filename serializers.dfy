/** The import serializers: each kind declares its fields; validation turns
    an entry of the payload into field values, resolving references through
    the run's ModelDict; `save` upserts the row this store imported under
    the entry's id and touches its `last_updated`. */
module Serializers {
  import opened Wrappers
  import opened Exceptions
  import opened Json
  import opened Kinds
  import opened Store
  import opened ModelDicts
  import Text

  datatype FieldType = PlainField | IntegerField | ReferenceField(target: Kind) | ManyReferenceField(target: Kind)

  /** How a declared field treats absence and null: `required=True`;
      `required=False, allow_null=True`; `required=False` alone. */
  datatype Presence = Required | Optional | OptionalNotNull

  datatype FieldDecl = FieldDecl(name: string, ftype: FieldType, presence: Presence)
  {
    predicate IsRequired() {
      presence == Required
    }

    predicate AllowsNull() {
      presence == Optional
    }
  }

  const Id: FieldDecl := FieldDecl("id", IntegerField, Required)

  /** Each kind's serializer's declared fields, in declaration order. */
  function Fields(k: Kind): seq<FieldDecl> {
    [Id] + Declared(k)
  }

  /** The fields each serializer declares after "id". */
  function Declared(k: Kind): seq<FieldDecl> {
    match k
    case AgencyKind =>
      [FieldDecl("title", PlainField, Required), FieldDecl("short_name", PlainField, Required),
       FieldDecl("icon", ReferenceField(ImageKind), OptionalNotNull)]
    case CategoryKind =>
      [FieldDecl("title", PlainField, Required), FieldDecl("description", PlainField, Optional)]
    case ChangeDetailKind =>
      [FieldDecl("old_value", PlainField, Optional), FieldDecl("new_value", PlainField, Optional)]
    case ContactTypeKind =>
      [FieldDecl("name", PlainField, Required), FieldDecl("required", PlainField, Required)]
    case ContactKind =>
      [FieldDecl("secure_phone", PlainField, Optional), FieldDecl("unsecure_phone", PlainField, Optional), FieldDecl("email", PlainField, Required),
       FieldDecl("name", PlainField, Required), FieldDecl("organization", PlainField, Optional), FieldDecl("contact_type", ReferenceField(ContactTypeKind), Required)]
    case CustomFieldTypeKind =>
      [FieldDecl("name", PlainField, Required), FieldDecl("display_name", PlainField, Required), FieldDecl("media_type", PlainField, Required),
       FieldDecl("options", PlainField, Optional)]
    case CustomFieldKind =>
      [FieldDecl("section", PlainField, Required), FieldDecl("display_name", PlainField, Required), FieldDecl("label", PlainField, Required),
       FieldDecl("description", PlainField, Required), FieldDecl("tooltip", PlainField, Required), FieldDecl("is_required", PlainField, Required),
       FieldDecl("admin_only", PlainField, Required), FieldDecl("properties", PlainField, Optional), FieldDecl("all_listing_types", PlainField, Required),
       FieldDecl("type", ReferenceField(CustomFieldTypeKind), Required)]
    case CustomFieldValueKind =>
      [FieldDecl("value", PlainField, Required), FieldDecl("listing", ReferenceField(ListingKind), Required),
       FieldDecl("custom_field", ReferenceField(CustomFieldKind), Required)]
    case DocUrlKind =>
      [FieldDecl("name", PlainField, Required), FieldDecl("url", PlainField, Required), FieldDecl("listing", ReferenceField(ListingKind), Required)]
    case ImageTypeKind =>
      [FieldDecl("name", PlainField, Required), FieldDecl("max_size_bytes", IntegerField, Required), FieldDecl("max_width", IntegerField, Required),
       FieldDecl("max_height", IntegerField, Required), FieldDecl("min_width", IntegerField, Required), FieldDecl("min_height", IntegerField, Required)]
    case ImageKind =>
      [FieldDecl("uuid", PlainField, Required), FieldDecl("security_marking", PlainField, Required), FieldDecl("file_extension", PlainField, Required),
       FieldDecl("image_type", ReferenceField(ImageTypeKind), Required)]
    case IntentKind =>
      [FieldDecl("action", PlainField, Required), FieldDecl("media_type", PlainField, Required), FieldDecl("label", PlainField, Required),
       FieldDecl("icon", ReferenceField(ImageKind), Required)]
    case ListingKind => ListingText() + ListingFlags() + ListingStats() + ListingReferences()
    case ListingActivityKind =>
      [FieldDecl("action", PlainField, Required), FieldDecl("activity_date", PlainField, Required), FieldDecl("description", PlainField, Optional),
       FieldDecl("author", ReferenceField(ProfileKind), Required), FieldDecl("listing", ReferenceField(ListingKind), Required),
       FieldDecl("change_details", ManyReferenceField(ChangeDetailKind), Required)]
    case ListingTypeKind =>
      [FieldDecl("title", PlainField, Required), FieldDecl("description", PlainField, Required)]
    case ProfileKind =>
      [FieldDecl("display_name", PlainField, Required), FieldDecl("bio", PlainField, Required), FieldDecl("dn", PlainField, Required),
       FieldDecl("issuer_dn", PlainField, Optional), FieldDecl("auth_expires", PlainField, Required), FieldDecl("access_control", PlainField, Required),
       FieldDecl("center_tour_flag", PlainField, Required), FieldDecl("hud_tour_flag", PlainField, Required), FieldDecl("webtop_tour_flag", PlainField, Required),
       FieldDecl("email_notification_flag", PlainField, Required), FieldDecl("listing_notification_flag", PlainField, Required),
       FieldDecl("subscription_notification_flag", PlainField, Required), FieldDecl("leaving_ozp_warning_flag", PlainField, Required),
       FieldDecl("organizations", ManyReferenceField(AgencyKind), Required),
       FieldDecl("stewarded_organizations", ManyReferenceField(AgencyKind), Required)]
    case ReviewKind =>
      [FieldDecl("text", PlainField, Optional), FieldDecl("rate", IntegerField, Required), FieldDecl("edited_date", PlainField, Required),
       FieldDecl("created_date", PlainField, Required), FieldDecl("listing", ReferenceField(ListingKind), Required),
       FieldDecl("author", ReferenceField(ProfileKind), Required)]
    case ScreenshotKind =>
      [FieldDecl("description", PlainField, Optional), FieldDecl("small_image", ReferenceField(ImageKind), Required),
       FieldDecl("large_image", ReferenceField(ImageKind), Required), FieldDecl("listing", ReferenceField(ListingKind), Required)]
    case TagKind =>
      [FieldDecl("name", PlainField, Required)]
  }

  /** The listing serializer's text and date fields. */
  function ListingText(): seq<FieldDecl> {
    [FieldDecl("title", PlainField, Required), FieldDecl("approved_date", PlainField, Optional),
     FieldDecl("edited_date", PlainField, Required), FieldDecl("featured_date", PlainField, Optional),
     FieldDecl("description", PlainField, Optional), FieldDecl("description_short", PlainField, Optional),
     FieldDecl("launch_url", PlainField, Optional), FieldDecl("version_name", PlainField, Optional),
     FieldDecl("unique_name", PlainField, Optional), FieldDecl("what_is_new", PlainField, Optional),
     FieldDecl("usage_requirements", PlainField, Optional), FieldDecl("system_requirements", PlainField, Optional),
     FieldDecl("approval_status", PlainField, Required), FieldDecl("security_marking", PlainField, Optional)]
  }

  /** The listing serializer's boolean flags. */
  function ListingFlags(): seq<FieldDecl> {
    [FieldDecl("is_enabled", PlainField, Required), FieldDecl("is_featured", PlainField, Required),
     FieldDecl("is_deleted", PlainField, Required), FieldDecl("is_508_compliant", PlainField, Required),
     FieldDecl("iframe_compatible", PlainField, Required), FieldDecl("is_private", PlainField, Required),
     FieldDecl("is_exportable", PlainField, Required)]
  }

  /** The listing serializer's rating and review counters. */
  function ListingStats(): seq<FieldDecl> {
    [FieldDecl("avg_rate", PlainField, Required), FieldDecl("total_votes", IntegerField, Required),
     FieldDecl("total_rate5", IntegerField, Required), FieldDecl("total_rate4", IntegerField, Required),
     FieldDecl("total_rate3", IntegerField, Required), FieldDecl("total_rate2", IntegerField, Required),
     FieldDecl("total_rate1", IntegerField, Required), FieldDecl("total_reviews", IntegerField, Required),
     FieldDecl("total_review_responses", IntegerField, Required), FieldDecl("feedback_score", IntegerField, Required)]
  }

  /** The listing serializer's references. */
  function ListingReferences(): seq<FieldDecl> {
    [FieldDecl("listing_type", ReferenceField(ListingTypeKind), Required),
     FieldDecl("agency", ReferenceField(AgencyKind), Required),
     FieldDecl("large_icon", ReferenceField(ImageKind), Optional),
     FieldDecl("small_icon", ReferenceField(ImageKind), Optional),
     FieldDecl("banner_icon", ReferenceField(ImageKind), Optional),
     FieldDecl("large_banner_icon", ReferenceField(ImageKind), Optional),
     FieldDecl("contacts", ManyReferenceField(ContactKind), Required),
     FieldDecl("owners", ManyReferenceField(ProfileKind), Required),
     FieldDecl("categories", ManyReferenceField(CategoryKind), Required),
     FieldDecl("tags", ManyReferenceField(TagKind), Required),
     FieldDecl("intents", ManyReferenceField(IntentKind), Required)]
  }

  /** `to_one_field_names`: every declared field but "id" and the
      to-many references. */
  function ToOneFieldNames(fs: seq<FieldDecl>): seq<string> {
    if fs == [] then []
    else (if fs[0].name != "id" && !fs[0].ftype.ManyReferenceField? then [fs[0].name] else [])
         + ToOneFieldNames(fs[1..])
  }

  /** `to_many_field_names`: the to-many references. */
  function ToManyFieldNames(fs: seq<FieldDecl>): seq<string> {
    if fs == [] then []
    else (if fs[0].ftype.ManyReferenceField? then [fs[0].name] else []) + ToManyFieldNames(fs[1..])
  }

  /** The declared fields other than "id" (an id field that is a to-many
      reference does not occur). */
  function NonIdNames(fs: seq<FieldDecl>): seq<string> {
    if fs == [] then []
    else (if fs[0].name != "id" || fs[0].ftype.ManyReferenceField? then [fs[0].name] else []) + NonIdNames(fs[1..])
  }

  /** The two name lists split the declared fields other than "id":
      together they hold each exactly as often as it is declared. */
  lemma {:induction false} FieldNamesPartition(fs: seq<FieldDecl>)
    ensures multiset(ToOneFieldNames(fs)) + multiset(ToManyFieldNames(fs)) == multiset(NonIdNames(fs))
  {
    if fs != [] {
      FieldNamesPartition(fs[1..]);
    }
  }

  /** `models.get(cls, data)` for a JSON value: a bool hashes as 0 or 1, a
      string or None matches no integer id, and a list or object cannot be
      hashed once `cls` has an entry. */
  function LookupJson(models: Registry, k: Kind, j: Json): (r: Result<Option<Instance>, Exception>)
    ensures j.JInt? ==> r == Ok(Lookup(models, k, j.i))
    ensures r.Ok? && r.value.Some? ==> (j.JInt? || j.JBool?) && Lookup(models, k, if j.JInt? then j.i else if j.b then 1 else 0) == r.value
    ensures r.Err? <==> k in models && (j.JList? || j.JObj?)
  {
    if k !in models then Ok(None)
    else
      match j
      case JInt(i) => Ok(Lookup(models, k, i))
      case JBool(b) => Ok(Lookup(models, k, if b then 1 else 0))
      case JList(_) => Err(TypeError("unhashable type: 'list'"))
      case JObj(_) => Err(TypeError("unhashable type: 'dict'"))
      case _ => Ok(None)
  }

  /** `"%d" % j`: integers and bools format as decimal numbers, anything
      else raises. */
  function FormatD(j: Json): (r: Result<string, Exception>)
    ensures r.Ok? <==> j.JInt? || j.JBool?
    ensures j.JInt? ==> r == Ok(Text.IntToString(j.i))
  {
    match j
    case JInt(i) => Ok(Text.IntToString(i))
    case JBool(b) => Ok(if b then "1" else "0")
    case _ => Err(TypeError("%d format: a number is required, not " + PyTypeName(j)))
  }

  /** The primary keys this run has filed under kind `k`. */
  function FiledPks(models: Registry, k: Kind): set<nat> {
    if k in models then set e | e in models[k].items :: models[k].items[e].pk else {}
  }

  /** The value points only at rows filed in the registry. */
  predicate Resolved(models: Registry, v: Value) {
    match v
    case Plain(_) => true
    case RefTo(t, pk) => pk in FiledPks(models, t)
    case RefsTo(t, pks) => forall p :: p in pks ==> p in FiledPks(models, t)
  }

  /** `ReferenceField.get_reference`: the instance filed under the id, or
      the validation message naming the class and the id; the outer result
      is the exception Python raises on a value it cannot hash or format. */
  function GetReference(models: Registry, k: Kind, j: Json): (r: Result<Result<Instance, string>, Exception>)
    ensures j.JInt? && Lookup(models, k, j.i).Some? ==> r == Ok(Ok(Lookup(models, k, j.i).value))
    ensures j.JInt? && Lookup(models, k, j.i).None? ==>
              r == Ok(Err(ClassName(k) + " not found with id=" + Text.IntToString(j.i)))
    ensures r.Ok? && r.value.Ok? ==> r.value.value.pk in FiledPks(models, k)
    ensures r.Ok? <==> j.JInt? || j.JBool?
  {
    var found :- LookupJson(models, k, j);
    match found
    case Some(x) =>
      assert x.pk in FiledPks(models, k) by {
        var e := if j.JInt? then j.i else if j.b then 1 else 0;
        assert e in models[k].items && models[k].items[e] == x;
      }
      Ok(Ok(x))
    case None =>
      var id :- FormatD(j);
      Ok(Err(ClassName(k) + " not found with id=" + id))
  }

  /** `get_reference` accepts `j` as the row `pk`. */
  predicate ResolvesTo(models: Registry, k: Kind, j: Json, pk: nat) {
    var r := GetReference(models, k, j);
    r.Ok? && r.value.Ok? && r.value.value.pk == pk
  }

  /** `get_reference` finds a row for `j`. */
  predicate Found(models: Registry, k: Kind, j: Json) {
    var r := GetReference(models, k, j);
    r.Ok? && r.value.Ok?
  }

  /** `ManyReferenceField.to_internal_value` over a list: each id in
      order; the first that is missing (or that raises) decides. */
  function GetReferences(models: Registry, k: Kind, items: seq<Json>): (r: Result<Result<seq<nat>, string>, Exception>)
    ensures r.Ok? && r.value.Ok? ==> |r.value.value| == |items|
    ensures r.Ok? && r.value.Ok? ==> forall i :: 0 <= i < |items| ==> ResolvesTo(models, k, items[i], r.value.value[i])
    ensures (forall i :: 0 <= i < |items| ==> items[i].JInt? && Lookup(models, k, items[i].i).Some?) ==> r.Ok? && r.value.Ok?
    ensures r.Ok? && r.value.Ok? <==> forall i :: 0 <= i < |items| ==> Found(models, k, items[i])
    ensures r.Ok? && r.value.Err? ==>
              exists i :: 0 <= i < |items| && GetReference(models, k, items[i]) == Ok(Err(r.value.error))
                          && forall j :: 0 <= j < i ==> Found(models, k, items[j])
    ensures r.Err? ==>
              exists i :: 0 <= i < |items| && GetReference(models, k, items[i]) == Err(r.error)
                          && forall j :: 0 <= j < i ==> Found(models, k, items[j])
  {
    if items == [] then Ok(Ok([]))
    else
      var first :- GetReference(models, k, items[0]);
      match first
      case Err(message) => Ok(Err(message))
      case Ok(x) =>
        var rest :- GetReferences(models, k, items[1..]);
        match rest
        case Err(message) => Ok(Err(message))
        case Ok(pks) => Ok(Ok([x.pk] + pks))
  }

  /** What validating one declared field yields: nothing (an optional field
      that is absent), a value, or a validation message. */
  datatype Outcome = Skip | Accept(v: Value) | Reject(message: string)

  /** Whether a validated value suits the declared field. */
  predicate Suits(f: FieldDecl, v: Value) {
    if v == Plain(JNull) then f.AllowsNull() || f.ftype.PlainField?
    else match f.ftype
      case PlainField => v.Plain?
      case IntegerField => v.Plain? && v.j.JInt?
      case ReferenceField(t) => v.RefTo? && v.kind == t
      case ManyReferenceField(t) => v.RefsTo? && v.kind == t
  }

  /** The longest string `IntegerField` will try to read as a number. */
  const MaxIntegerText := 1000

  /** `IntegerField.to_internal_value`: an integer is kept; a string of at
      most 1000 characters is read by `int()` once a final point and the
      zeros after it are dropped ("5", "-5", "5.00"); anything else is not a
      valid integer. */
  function ToInteger(j: Json): (r: Outcome)
    ensures r.Accept? || r.Reject?
    ensures r.Accept? ==> r.v.Plain? && r.v.j.JInt?
    ensures j.JInt? ==> r == Accept(Plain(j))
    ensures j.JStr? && |j.s| > MaxIntegerText ==> r == Reject("String value too large.")
    ensures j.JStr? && r.Accept? ==> Text.ParseInt(Text.DropPointZeros(j.s)) == Some(r.v.j.i)
    ensures j.JStr? && |j.s| <= MaxIntegerText && Text.ParseInt(Text.DropPointZeros(j.s)).None? ==> r == Reject("A valid integer is required.")
    ensures !j.JInt? && !j.JStr? ==> r == Reject("A valid integer is required.")
  {
    match j
    case JInt(_) => Accept(Plain(j))
    case JStr(s) =>
      if |s| > MaxIntegerText then Reject("String value too large.")
      else
        var n := Text.ParseInt(Text.DropPointZeros(s));
        if n.Some? then Accept(Plain(JInt(n.value))) else Reject("A valid integer is required.")
    case _ => Reject("A valid integer is required.")
  }

  /** The decimal text of an integer, with or without a point and zeros
      after it, is read back as that integer. */
  lemma IntegerTextAccepted(i: int, zeros: string)
    requires forall k :: 0 <= k < |zeros| ==> zeros[k] == '0'
    requires |Text.IntToString(i)| + 1 + |zeros| <= MaxIntegerText
    ensures ToInteger(JStr(Text.IntToString(i))) == Accept(Plain(JInt(i)))
    ensures ToInteger(JStr(Text.IntToString(i) + "." + zeros)) == Accept(Plain(JInt(i)))
  {
    Text.IntToStringParses(i);
    Text.PointZerosDropped(Text.IntToString(i), zeros);
    var s := Text.IntToString(i);
    assert '.' !in s by {
      if s[0] == '-' {
        assert s[1..] == Text.NatToString(-i);
      }
    }
    assert Text.TrimZeros(s) <= s;
  }

  /** One declared field's `run_validation`: the required / null checks of
      the framework, then the field's own conversion. */
  function ValidateField(models: Registry, f: FieldDecl, data: map<string, Json>): (r: Result<Outcome, Exception>)
    ensures r.Ok? && r.value.Skip? <==> f.name !in data && !f.IsRequired()
    ensures f.name !in data && f.IsRequired() ==> r == Ok(Reject("This field is required."))
    ensures r.Ok? && r.value.Accept? ==> f.name in data && Suits(f, r.value.v) && Resolved(models, r.value.v)
    ensures f.name in data && data[f.name].JNull? && !f.AllowsNull() ==> r == Ok(Reject("This field may not be null."))
    ensures f.name in data && !data[f.name].JNull? && f.ftype.IntegerField? ==> r == Ok(ToInteger(data[f.name]))
    ensures f.name in data && f.ftype.ReferenceField? && data[f.name].JInt? && Lookup(models, f.ftype.target, data[f.name].i).None? ==>
              r == Ok(Reject(ClassName(f.ftype.target) + " not found with id=" + Text.IntToString(data[f.name].i)))
  {
    if f.name !in data then Ok(if f.IsRequired() then Reject("This field is required.") else Skip)
    else
      var j := data[f.name];
      if j.JNull? then Ok(if f.AllowsNull() then Accept(Plain(JNull)) else Reject("This field may not be null."))
      else
        match f.ftype
        case PlainField => Ok(Accept(Plain(j)))
        case IntegerField => Ok(ToInteger(j))
        case ReferenceField(t) =>
          var found :- GetReference(models, t, j);
          Ok(match found
             case Ok(x) => Accept(RefTo(t, x.pk))
             case Err(message) => Reject(message))
        case ManyReferenceField(t) =>
          match j
          case JList(items) =>
            var found :- GetReferences(models, t, items);
            Ok(match found
               case Ok(pks) => Accept(RefsTo(t, pks))
               case Err(message) => Reject(message))
          case JStr(s) =>
            // iterating a string yields one-character strings, none of which is an id
            if s == "" then Ok(Accept(RefsTo(t, [])))
            else Err(TypeError("%d format: a number is required, not str"))
          case JObj(m) =>
            // iterating an object yields its keys, strings again
            if m == map[] then Ok(Accept(RefsTo(t, [])))
            else Err(TypeError("%d format: a number is required, not str"))
          case _ => Err(TypeError("'" + PyTypeName(j) + "' object is not iterable"))
  }

  /** What `run_validation` makes of a present, non-null value, field type
      by field type: a plain value is kept, a reference is the row
      `get_reference` finds (or its message or exception), and a list of
      references is the rows found for its items, in order. A string or an
      object in place of a list is iterated: only an empty one is accepted. */
  lemma ValidateFieldConverts(models: Registry, f: FieldDecl, data: map<string, Json>)
    ensures f.name in data && data[f.name].JNull? && f.AllowsNull() ==> ValidateField(models, f, data) == Ok(Accept(Plain(JNull)))
    ensures f.name in data && !data[f.name].JNull? && f.ftype.PlainField? ==>
              ValidateField(models, f, data) == Ok(Accept(Plain(data[f.name])))
    ensures f.name in data && !data[f.name].JNull? && f.ftype.ReferenceField? ==>
              var r, t := ValidateField(models, f, data), f.ftype.target;
              var g := GetReference(models, t, data[f.name]);
              && (g.Err? ==> r == Err(g.error))
              && (g.Ok? && g.value.Ok? ==> r == Ok(Accept(RefTo(t, g.value.value.pk))) && ResolvesTo(models, t, data[f.name], g.value.value.pk))
              && (g.Ok? && g.value.Err? ==> r == Ok(Reject(g.value.error)))
              && (data[f.name].JInt? && Lookup(models, t, data[f.name].i).Some? ==>
                    r == Ok(Accept(RefTo(t, Lookup(models, t, data[f.name].i).value.pk))))
    ensures f.name in data && f.ftype.ManyReferenceField? && data[f.name].JList? ==>
              var r, t, items := ValidateField(models, f, data), f.ftype.target, data[f.name].items;
              var g := GetReferences(models, t, items);
              && (g.Err? ==> r == Err(g.error))
              && (g.Ok? && g.value.Err? ==> r == Ok(Reject(g.value.error)))
              && (r.Ok? && r.value.Accept? <==> forall i :: 0 <= i < |items| ==> Found(models, t, items[i]))
              && (r.Ok? && r.value.Accept? ==>
                    && r.value.v.RefsTo? && r.value.v.kind == t && |r.value.v.pks| == |items|
                    && forall i :: 0 <= i < |items| ==> ResolvesTo(models, t, items[i], r.value.v.pks[i]))
    ensures f.name in data && f.ftype.ManyReferenceField? && !data[f.name].JNull? && !data[f.name].JList? ==>
              var r := ValidateField(models, f, data);
              && (r.Ok? <==> data[f.name] == JStr("") || data[f.name] == JObj(map[]))
              && (r.Ok? ==> r == Ok(Accept(RefsTo(f.ftype.target, []))))
              && (r.Err? ==> r.error.TypeError?)
  {
  }

  datatype FieldError = FieldError(field: string, message: string)

  /** `is_valid()` with `validated_data`, or `errors`. */
  datatype Validation = Valid(data: map<string, Value>) | Invalid(errors: seq<FieldError>)

  /** The fields validated left to right: the values accepted and the
      messages collected; the first exception aborts. */
  function ValidateFields(models: Registry, fs: seq<FieldDecl>, data: map<string, Json>)
    : (r: Result<(map<string, Value>, seq<FieldError>), Exception>)
    ensures r.Ok? ==> forall n :: n in r.value.0 ==> n in data && Resolved(models, r.value.0[n])
    ensures r.Ok? <==> forall i :: 0 <= i < |fs| ==> ValidateField(models, fs[i], data).Ok?
    decreases |fs|
  {
    if fs == [] then Ok((map[], []))
    else
      var (values, errors) :- ValidateFields(models, fs[..|fs| - 1], data);
      var f := fs[|fs| - 1];
      var outcome :- ValidateField(models, f, data);
      Ok(match outcome
         case Skip => (values, errors)
         case Accept(v) => (values[f.name := v], errors)
         case Reject(message) => (values, errors + [FieldError(f.name, message)]))
  }

  /** `serializer.is_valid()` on one payload entry: anything but an object
      is rejected as a whole. `None` fails the framework's empty-value check
      before any type check, and `errors` reports it as "No data provided". */
  function Validate(models: Registry, k: Kind, data: Json): (r: Result<Validation, Exception>)
    ensures data.JNull? ==> r == Ok(Invalid([FieldError("non_field_errors", "No data provided")]))
    ensures !data.JObj? && !data.JNull? ==>
              r == Ok(Invalid([FieldError("non_field_errors", "Invalid data. Expected a dictionary, but got " + PyTypeName(data) + ".")]))
  {
    match data
    case JObj(m) =>
      var (values, errors) :- ValidateFields(models, Fields(k), m);
      Ok(if errors == [] then Valid(values) else Invalid(errors))
    case JNull => Ok(Invalid([FieldError("non_field_errors", "No data provided")]))
    case _ => Ok(Invalid([FieldError("non_field_errors", "Invalid data. Expected a dictionary, but got " + PyTypeName(data) + ".")]))
  }

  /** Each accepted value suits a field declared under its name. */
  lemma {:induction false} AcceptedValuesSuit(models: Registry, fs: seq<FieldDecl>, data: map<string, Json>, n: string)
    requires ValidateFields(models, fs, data).Ok? && n in ValidateFields(models, fs, data).value.0
    ensures exists i :: 0 <= i < |fs| && fs[i].name == n && Suits(fs[i], ValidateFields(models, fs, data).value.0[n])
    decreases |fs|
  {
    var prefix := fs[..|fs| - 1];
    var f := fs[|fs| - 1];
    var values := ValidateFields(models, fs, data).value.0;
    var outcome := ValidateField(models, f, data).value;
    if outcome.Accept? && f.name == n {
      assert fs[|fs| - 1].name == n && Suits(fs[|fs| - 1], values[n]);
    } else {
      AcceptedValuesSuit(models, prefix, data, n);
      var i :| 0 <= i < |prefix| && prefix[i].name == n && Suits(prefix[i], ValidateFields(models, prefix, data).value.0[n]);
      assert fs[i] == prefix[i];
    }
  }

  /** With no message collected, every required field has a value. */
  lemma {:induction false} NoErrorsRequiredPresent(models: Registry, fs: seq<FieldDecl>, data: map<string, Json>, i: nat)
    requires ValidateFields(models, fs, data).Ok? && ValidateFields(models, fs, data).value.1 == []
    requires i < |fs| && fs[i].IsRequired()
    ensures fs[i].name in ValidateFields(models, fs, data).value.0
    decreases |fs|
  {
    var prefix := fs[..|fs| - 1];
    if i < |fs| - 1 {
      assert fs[i] == prefix[i];
      NoErrorsRequiredPresent(models, prefix, data, i);
    }
  }

  /** Every field that is rejected has its message collected. */
  lemma {:induction false} RejectionsReported(models: Registry, fs: seq<FieldDecl>, data: map<string, Json>, i: nat)
    requires ValidateFields(models, fs, data).Ok?
    requires i < |fs| && ValidateField(models, fs[i], data).Ok? && ValidateField(models, fs[i], data).value.Reject?
    ensures FieldError(fs[i].name, ValidateField(models, fs[i], data).value.message) in ValidateFields(models, fs, data).value.1
    decreases |fs|
  {
    var prefix := fs[..|fs| - 1];
    if i < |fs| - 1 {
      assert fs[i] == prefix[i];
      RejectionsReported(models, prefix, data, i);
    }
  }

  /** The field refers to rows of kind `k`. */
  predicate RefersTo(f: FieldDecl, k: Kind) {
    (f.ftype.ReferenceField? || f.ftype.ManyReferenceField?) && f.ftype.target == k
  }

  /** A declared field of kind `k` does not redeclare "id", and it refers
      only to a kind imported before `k`; in particular never to `k`
      itself, so validating an entry never looks at its own kind. */
  predicate SoundDecl(f: FieldDecl, k: Kind) {
    f.name != "id" && ((f.ftype.ReferenceField? || f.ftype.ManyReferenceField?) ==> Rank(f.ftype.target) < Rank(k))
  }

  lemma DeclaredSound(k: Kind, i: nat)
    requires i < |Declared(k)|
    ensures SoundDecl(Declared(k)[i], k)
  {
    match k
    case ListingKind => ListingDeclaredSound(i);
    case ProfileKind => ProfileDeclaredSound(i);
    case CustomFieldKind => CustomFieldDeclaredSound(i);
    case ImageTypeKind | CategoryKind | ChangeDetailKind | ContactTypeKind => LookupDeclaredSound(k, i);
    case CustomFieldTypeKind | ListingTypeKind | TagKind | ContactKind => TypedDeclaredSound(k, i);
    case ImageKind | AgencyKind | IntentKind | ListingActivityKind => AssetDeclaredSound(k, i);
    case DocUrlKind | ReviewKind | ScreenshotKind | CustomFieldValueKind => DetailDeclaredSound(k, i);
  }

  lemma LookupDeclaredSound(k: Kind, i: nat)
    requires k == ImageTypeKind || k == CategoryKind || k == ChangeDetailKind || k == ContactTypeKind
    requires i < |Declared(k)|
    ensures SoundDecl(Declared(k)[i], k)
  {
    match k
    case ImageTypeKind =>
    case CategoryKind =>
    case ChangeDetailKind =>
    case ContactTypeKind =>
  }

  lemma TypedDeclaredSound(k: Kind, i: nat)
    requires k == CustomFieldTypeKind || k == ListingTypeKind || k == TagKind || k == ContactKind
    requires i < |Declared(k)|
    ensures SoundDecl(Declared(k)[i], k)
  {
    match k
    case CustomFieldTypeKind =>
    case ListingTypeKind =>
    case TagKind =>
    case ContactKind =>
  }

  lemma AssetDeclaredSound(k: Kind, i: nat)
    requires k == ImageKind || k == AgencyKind || k == IntentKind || k == ListingActivityKind
    requires i < |Declared(k)|
    ensures SoundDecl(Declared(k)[i], k)
  {
    match k
    case ImageKind =>
    case AgencyKind =>
    case IntentKind =>
    case ListingActivityKind =>
  }

  lemma DetailDeclaredSound(k: Kind, i: nat)
    requires k == DocUrlKind || k == ReviewKind || k == ScreenshotKind || k == CustomFieldValueKind
    requires i < |Declared(k)|
    ensures SoundDecl(Declared(k)[i], k)
  {
    match k
    case DocUrlKind =>
    case ReviewKind =>
    case ScreenshotKind =>
    case CustomFieldValueKind =>
  }

  lemma CustomFieldDeclaredSound(i: nat)
    requires i < |Declared(CustomFieldKind)|
    ensures SoundDecl(Declared(CustomFieldKind)[i], CustomFieldKind)
  {
  }

  lemma ProfileDeclaredSound(i: nat)
    requires i < |Declared(ProfileKind)|
    ensures SoundDecl(Declared(ProfileKind)[i], ProfileKind)
  {
  }

  lemma ListingDeclaredSound(i: nat)
    requires i < |Declared(ListingKind)|
    ensures SoundDecl(Declared(ListingKind)[i], ListingKind)
  {
    var text, flags, stats, refs := ListingText(), ListingFlags(), ListingStats(), ListingReferences();
    if i < |text| {
      assert SoundDecl(text[i], ListingKind);
    } else if i < |text + flags| {
      assert SoundDecl(flags[i - |text|], ListingKind);
    } else if i < |text + flags + stats| {
      assert SoundDecl(stats[i - |text + flags|], ListingKind);
    } else {
      assert SoundDecl(refs[i - |text + flags + stats|], ListingKind);
    }
  }

  /** The registries agree on every kind but `k`. */
  predicate SameExcept(m1: Registry, m2: Registry, k: Kind) {
    forall t :: t != k ==> (t in m1 <==> t in m2) && (t in m1 ==> m1[t] == m2[t])
  }

  /** Resolving one reference to some other kind ignores what is filed
      under `k`. */
  lemma GetReferenceFrame(m1: Registry, m2: Registry, k: Kind, t: Kind, j: Json)
    requires SameExcept(m1, m2, k) && t != k
    ensures GetReference(m1, t, j) == GetReference(m2, t, j)
  {
    assert LookupJson(m1, t, j) == LookupJson(m2, t, j);
  }

  /** Resolving references to some other kind ignores what is filed
      under `k`. */
  lemma {:induction false} GetReferencesFrame(m1: Registry, m2: Registry, k: Kind, t: Kind, items: seq<Json>)
    requires SameExcept(m1, m2, k) && t != k
    ensures GetReferences(m1, t, items) == GetReferences(m2, t, items)
    decreases |items|
  {
    if items != [] {
      GetReferenceFrame(m1, m2, k, t, items[0]);
      GetReferencesFrame(m1, m2, k, t, items[1..]);
    }
  }

  /** A field that does not refer to `k` validates alike whatever is filed
      under `k`. */
  lemma ValidateFieldFrame(m1: Registry, m2: Registry, k: Kind, f: FieldDecl, data: map<string, Json>)
    requires SameExcept(m1, m2, k) && !RefersTo(f, k)
    ensures ValidateField(m1, f, data) == ValidateField(m2, f, data)
  {
    if f.name in data && (f.ftype.ReferenceField? || f.ftype.ManyReferenceField?) {
      var t := f.ftype.target;
      assert LookupJson(m1, t, data[f.name]) == LookupJson(m2, t, data[f.name]);
      if data[f.name].JList? {
        GetReferencesFrame(m1, m2, k, t, data[f.name].items);
      }
    }
  }

  lemma {:induction false} ValidateFieldsFrame(m1: Registry, m2: Registry, k: Kind, fs: seq<FieldDecl>, data: map<string, Json>)
    requires SameExcept(m1, m2, k)
    requires forall i :: 0 <= i < |fs| ==> !RefersTo(fs[i], k)
    ensures ValidateFields(m1, fs, data) == ValidateFields(m2, fs, data)
    decreases |fs|
  {
    if fs != [] {
      ValidateFieldsFrame(m1, m2, k, fs[..|fs| - 1], data);
      ValidateFieldFrame(m1, m2, k, fs[|fs| - 1], data);
    }
  }

  /** An entry of kind `k` validates alike whatever else of kind `k` has
      been filed: no serializer refers to its own kind, so the errors an
      import collects for a kind do not depend on the order of its entries. */
  lemma ValidateFrame(m1: Registry, m2: Registry, k: Kind, data: Json)
    requires SameExcept(m1, m2, k)
    ensures Validate(m1, k, data) == Validate(m2, k, data)
  {
    if data.JObj? {
      FieldsSound(k);
      ValidateFieldsFrame(m1, m2, k, Fields(k), data.fields);
    }
  }

  /** No field of kind `k` refers to `k`. */
  lemma FieldsSound(k: Kind)
    ensures forall i :: 0 <= i < |Fields(k)| ==> !RefersTo(Fields(k)[i], k)
  {
    var fs := Fields(k);
    forall i | 0 <= i < |fs|
      ensures !RefersTo(fs[i], k)
    {
      if i > 0 {
        assert fs[i] == Declared(k)[i - 1];
        DeclaredSound(k, i - 1);
      }
    }
  }

  /** An entry is valid only if it is an object; then every value accepted
      names a key of the entry and refers only to instances filed in this
      run, and its id is an integer. */
  lemma ValidEntry(models: Registry, k: Kind, data: Json, values: map<string, Value>)
    requires Validate(models, k, data) == Ok(Valid(values))
    ensures data.JObj?
    ensures forall n :: n in values ==> n in data.fields && Resolved(models, values[n])
    ensures "id" in values && values["id"].Plain? && values["id"].j.JInt?
    ensures forall i :: 0 <= i < |Fields(k)| && Fields(k)[i].IsRequired() ==> Fields(k)[i].name in values
  {
    var fs := Fields(k);
    forall i | 0 <= i < |fs| && fs[i].IsRequired()
      ensures fs[i].name in values
    {
      NoErrorsRequiredPresent(models, fs, data.fields, i);
    }
    assert fs[0] == Id;
    AcceptedValuesSuit(models, fs, data.fields, "id");
    var i :| 0 <= i < |fs| && fs[i].name == "id" && Suits(fs[i], values["id"]);
    if i != 0 {
      assert fs[i] == Declared(k)[i - 1];
      DeclaredSound(k, i - 1);
    }
  }

  /** A field that is rejected makes the whole entry invalid, with that
      field's message among the errors (unless another field raised). */
  lemma RejectionInvalidates(models: Registry, k: Kind, data: map<string, Json>, i: nat)
    requires i < |Fields(k)|
    requires ValidateField(models, Fields(k)[i], data).Ok? && ValidateField(models, Fields(k)[i], data).value.Reject?
    ensures Validate(models, k, JObj(data)).Ok? ==>
              && Validate(models, k, JObj(data)).value.Invalid?
              && FieldError(Fields(k)[i].name, ValidateField(models, Fields(k)[i], data).value.message)
                 in Validate(models, k, JObj(data)).value.errors
  {
    var fs := Fields(k);
    var v := ValidateFields(models, fs, data);
    if v.Ok? {
      RejectionsReported(models, fs, data, i);
      assert v.value.1 != [];
      assert Validate(models, k, JObj(data)) == Ok(Invalid(v.value.1));
    }
  }

  /** An absent required field, and a reference to an id not filed in this
      run, each make the entry invalid with the framework's message. */
  lemma MissingOrUnresolvedInvalid(models: Registry, k: Kind, data: map<string, Json>, i: nat)
    requires i < |Fields(k)|
    ensures var f := Fields(k)[i];
            f.IsRequired() && f.name !in data && Validate(models, k, JObj(data)).Ok? ==>
              && Validate(models, k, JObj(data)).value.Invalid?
              && FieldError(f.name, "This field is required.") in Validate(models, k, JObj(data)).value.errors
    ensures var f := Fields(k)[i];
            f.ftype.ReferenceField? && f.name in data && data[f.name].JInt?
            && Lookup(models, f.ftype.target, data[f.name].i).None? && Validate(models, k, JObj(data)).Ok? ==>
              && Validate(models, k, JObj(data)).value.Invalid?
              && FieldError(f.name, ClassName(f.ftype.target) + " not found with id=" + Text.IntToString(data[f.name].i))
                 in Validate(models, k, JObj(data)).value.errors
  {
    var outcome := ValidateField(models, Fields(k)[i], data);
    if outcome.Ok? && outcome.value.Reject? {
      RejectionInvalidates(models, k, data, i);
    }
  }

  /** `validated_data["id"]` is an integer, as a valid entry's is. */
  predicate HasExternalId(validated: map<string, Value>) {
    "id" in validated && validated["id"].Plain? && validated["id"].j.JInt?
  }

  /** Every to-many name has a list of references to add. */
  predicate ManyValues(names: seq<string>, validated: map<string, Value>) {
    forall n :: n in names ==> n in validated && validated[n].RefsTo?
  }

  /** `save` of kind `k` finds every value it indexes in `validated`. */
  predicate Savable(k: Kind, validated: map<string, Value>) {
    (forall n :: n in ToOneFieldNames(Fields(k)) ==> n in validated) && ManyValues(ToManyFieldNames(Fields(k)), validated)
  }

  /** The fields after each named one is set to its validated value. */
  function Overwrite(fields: map<string, Value>, names: seq<string>, validated: map<string, Value>): (r: map<string, Value>)
    requires forall n :: n in names ==> n in validated
    ensures r.Keys == fields.Keys + (set n | n in names)
    ensures forall n :: n in names ==> r[n] == validated[n]
    ensures forall n :: n in fields && n !in names ==> r[n] == fields[n]
  {
    map n | n in fields.Keys + (set m | m in names) :: if n in names then validated[n] else fields[n]
  }

  /** The primary keys a list of references names, as a set. */
  function PkSet(pks: seq<nat>): (r: set<nat>)
    ensures forall p :: p in r <==> p in pks
  {
    set p | p in pks
  }

  /** The links after each named relation, in order, has its validated
      rows added. */
  function AddLinks(links: map<string, set<nat>>, names: seq<string>, validated: map<string, Value>)
    : map<string, set<nat>>
    requires ManyValues(names, validated)
    decreases |names|
  {
    if names == [] then links
    else
      var front := names[..|names| - 1];
      var n := names[|names| - 1];
      assert ManyValues(front, validated) by {
        assert forall m :: m in front ==> m in names;
      }
      var before := AddLinks(links, front, validated);
      before[n := (if n in before then before[n] else {}) + PkSet(validated[n].pks)]
  }

  /** Adding relations removes no link and no relation, adds every named
      relation's rows, and adds nothing else. */
  lemma {:induction false} AddLinksBounds(links: map<string, set<nat>>, names: seq<string>, validated: map<string, Value>)
    requires ManyValues(names, validated)
    ensures var r := AddLinks(links, names, validated);
            && r.Keys == links.Keys + (set n | n in names)
            && (forall n :: n in links ==> links[n] <= r[n])
            && (forall n :: n in names ==> PkSet(validated[n].pks) <= r[n])
            && (forall n :: n in r ==> r[n] <= (if n in links then links[n] else {}) + (if n in names then PkSet(validated[n].pks) else {}))
    decreases |names|
  {
    if names != [] {
      var front := names[..|names| - 1];
      var n := names[|names| - 1];
      assert names == front + [n];
      assert forall m :: m in names <==> m in front || m == n;
      AddLinksBounds(links, front, validated);
    }
  }

  lemma AddLinksNone(links: map<string, set<nat>>, validated: map<string, Value>)
    ensures AddLinks(links, [], validated) == links
  {
  }

  /** Adding one more relation is adding its rows to what is there. */
  lemma AddLinksStep(links: map<string, set<nat>>, names: seq<string>, n: string, validated: map<string, Value>)
    requires ManyValues(names + [n], validated)
    ensures ManyValues(names, validated)
    ensures var before := AddLinks(links, names, validated);
            AddLinks(links, names + [n], validated)
            == before[n := (if n in before then before[n] else {}) + PkSet(validated[n].pks)]
  {
    assert (names + [n])[..|names|] == names;
  }

  /** A write confined to the row found for (store, id), or to a new last
      row when there is none, keeps every other row. */
  lemma WritesOnlyUpsertKey(before: Table, after: Table, key: nat, store: nat, externalId: int)
    requires key == match FindExternal(before, store, externalId) case Some(pk) => pk case None => |before|
    requires |after| == if key == |before| then |before| + 1 else |before|
    requires forall j :: 0 <= j < |before| && j != key ==> after[j] == before[j]
    ensures |before| <= |after| <= |before| + 1
    ensures forall j :: 0 <= j < |before| && !ImportedFrom(before[j], store, externalId) ==> after[j] == before[j]
  {
  }

  /** One serializer bound to a validated entry of kind `kind`, with the
      import's context: the store it comes from and the import timestamp. */
  class ImportSerializer {
    const kind: Kind
    const store: nat
    const timestamp: int
    const db: Database
    const validated: map<string, Value>
    /** `to_one_field_names` and `to_many_field_names` of the kind. */
    const toOneNames: seq<string>
    const toManyNames: seq<string>

    constructor (kind: Kind, store: nat, timestamp: int, db: Database, validated: map<string, Value>)
      ensures this.kind == kind && this.store == store && this.timestamp == timestamp
      ensures this.db == db && this.validated == validated
      ensures toOneNames == ToOneFieldNames(Fields(kind)) && toManyNames == ToManyFieldNames(Fields(kind))
    {
      this.kind := kind;
      this.store := store;
      this.timestamp := timestamp;
      this.db := db;
      this.validated := validated;
      this.toOneNames := ToOneFieldNames(Fields(kind));
      this.toManyNames := ToManyFieldNames(Fields(kind));
    }

    function ExternalId(): int
      requires HasExternalId(validated)
    {
      validated["id"].j.i
    }

    /** `save` finds every value it indexes. */
    predicate Complete() {
      (forall n :: n in toOneNames ==> n in validated) && ManyValues(toManyNames, validated)
    }

    /** The row `save` leaves for an instance that started as `base`. */
    function Saved(base: Record): Record
      requires HasExternalId(validated) && Complete()
    {
      Record(Some(Metadata(store, ExternalId(), timestamp)),
             Overwrite(base.fields, toOneNames, validated),
             AddLinks(base.links, toManyNames, validated))
    }

    /** `_get_or_create_model`: the row this store imported under the id,
        with its `last_updated` touched and written back, or a new
        unsaved instance with fresh metadata. */
    method GetOrCreateModel() returns (pk: Option<nat>, instance: Record)
      requires HasExternalId(validated)
      modifies db`tables
      ensures pk == FindExternal(old(db.Rows(kind)), store, ExternalId())
      ensures pk.None? ==>
                && instance == Record(Some(Metadata(store, ExternalId(), timestamp)), map[], map[])
                && db.tables == old(db.tables)
      ensures pk.Some? ==>
                && instance == old(db.Rows(kind))[pk.value].value.(metadata := Some(Metadata(store, ExternalId(), timestamp)))
                && db.tables == old(db.tables)[kind := old(db.Rows(kind))[pk.value := Some(instance)]]
    {
      pk := FindExternal(db.Rows(kind), store, ExternalId());
      if pk.None? {
        instance := Record(Some(Metadata(store, ExternalId(), timestamp)), map[], map[]);
      } else {
        var existing := db.Rows(kind)[pk.value].value;
        instance := existing.(metadata := Some(existing.metadata.value.(lastUpdated := timestamp)));
        db.Update(kind, pk.value, instance);
      }
    }

    /** The first loop of `save`: each to-one field takes its validated
        value; a field the entry left out raises KeyError. */
    method AssignToOne(fields: map<string, Value>) returns (r: Result<map<string, Value>, Exception>)
      ensures r.Ok? <==> forall n :: n in toOneNames ==> n in validated
      ensures r.Ok? ==> r.value == Overwrite(fields, toOneNames, validated)
      ensures r.Err? ==> r.error.KeyError? && r.error.key in toOneNames && r.error.key !in validated
    {
      var names := toOneNames;
      var updated := fields;
      assert Overwrite(fields, names[..0], validated) == fields;
      for i := 0 to |names|
        invariant forall n :: n in names[..i] ==> n in validated
        invariant updated == Overwrite(fields, names[..i], validated)
      {
        if names[i] !in validated {
          return Err(KeyError(names[i]));
        }
        assert names[..i + 1] == names[..i] + [names[i]];
        updated := updated[names[i] := validated[names[i]]];
      }
      assert names[..|names|] == names;
      return Ok(updated);
    }

    /** The last loop of `save` over a row's links: each to-many relation
        gets its validated rows added, in declaration order, until a
        relation has no list to add. Returns the links reached and the
        exception that stopped the loop, if any. */
    method AddRelations(links: map<string, set<nat>>) returns (reached: map<string, set<nat>>, failure: Option<Exception>)
      ensures failure.None? <==> ManyValues(toManyNames, validated)
      ensures failure.None? ==> reached == AddLinks(links, toManyNames, validated)
      ensures failure.Some? ==> exists i :: 0 <= i < |toManyNames| && ManyValues(toManyNames[..i], validated)
                                   && reached == AddLinks(links, toManyNames[..i], validated)
      ensures links.Keys <= reached.Keys && forall n :: n in links ==> links[n] <= reached[n]
    {
      var names := toManyNames;
      reached := links;
      AddLinksNone(links, validated);
      for i := 0 to |names|
        invariant ManyValues(names[..i], validated)
        invariant reached == AddLinks(links, names[..i], validated)
      {
        var n := names[i];
        if n !in validated {
          AddLinksBounds(links, names[..i], validated);
          return reached, Some(KeyError(n));
        }
        if !validated[n].RefsTo? {
          AddLinksBounds(links, names[..i], validated);
          return reached, Some(TypeError("add() argument after * must be an iterable, not " + ValueTypeName(validated[n])));
        }
        assert names[..i + 1] == names[..i] + [n];
        AddLinksStep(links, names[..i], n, validated);
        reached := reached[n := (if n in reached then reached[n] else {}) + PkSet(validated[n].pks)];
      }
      assert names[..|names|] == names;
      AddLinksBounds(links, names, validated);
      return reached, None;
    }

    /** The last loop of `save` on the saved row. Each `add` is written at
        once, so the relations added before one that fails stay added. */
    method AddToMany(pk: nat) returns (r: Result<(), Exception>)
      requires pk < |db.Rows(kind)| && db.Rows(kind)[pk].Some?
      modifies db`tables
      ensures r.Ok? <==> ManyValues(toManyNames, validated)
      ensures var base := old(db.Rows(kind))[pk].value;
              r.Ok? ==> db.tables == old(db.tables)[kind := old(db.Rows(kind))[pk := Some(base.(links := AddLinks(base.links, toManyNames, validated)))]]
      ensures var base := old(db.Rows(kind))[pk].value;
              && db.tables == old(db.tables)[kind := db.Rows(kind)]
              && |db.Rows(kind)| == |old(db.Rows(kind))|
              && (forall j :: 0 <= j < |db.Rows(kind)| && j != pk ==> db.Rows(kind)[j] == old(db.Rows(kind))[j])
              && db.Rows(kind)[pk].Some?
              && db.Rows(kind)[pk].value.metadata == base.metadata
              && db.Rows(kind)[pk].value.fields == base.fields
      ensures UniqueExternal(old(db.Rows(kind))) ==> UniqueExternal(db.Rows(kind))
    {
      var row := db.Rows(kind)[pk].value;
      var links, failure := AddRelations(row.links);
      if UniqueExternal(db.Rows(kind)) && row.metadata.Some? {
        ReplaceKeepsUnique(db.Rows(kind), pk, row.(links := links));
      }
      db.Update(kind, pk, row.(links := links));
      if failure.Some? {
        return Err(failure.value);
      }
      return Ok(());
    }

    /** The primary key `save` gives the entry: the row found, or the next. */
    function UpsertKey(rows: Table): nat
      requires HasExternalId(validated)
    {
      match FindExternal(rows, store, ExternalId())
      case Some(pk) => pk
      case None => |rows|
    }

    /** The table `save` leaves when it succeeds. */
    function Upserted(rows: Table): Table
      requires HasExternalId(validated) && Complete()
    {
      match FindExternal(rows, store, ExternalId())
      case Some(pk) => rows[pk := Some(Saved(rows[pk].value))]
      case None => rows + [Some(Saved(Record(None, map[], map[])))]
    }

    /** Every row not imported from this store under this id is kept, and
        at most one row is added. */
    ghost predicate KeepsOthers(before: Table, after: Table)
      requires HasExternalId(validated)
    {
      && |before| <= |after| <= |before| + 1
      && forall j :: 0 <= j < |before| && !ImportedFrom(before[j], store, ExternalId()) ==> after[j] == before[j]
    }

    /** `save`: the upsert of one validated entry. It reuses the row this
        store imported under the same id (and no other) or appends a new
        one, sets every to-one field, adds to every to-many relation, and
        stamps the row with the import timestamp. */
    method Save() returns (r: Result<Instance, Exception>)
      requires HasExternalId(validated)
      modifies db`tables
      ensures r.Ok? <==> Complete()
      ensures r.Ok? ==>
                && r.value == Instance(kind, UpsertKey(old(db.Rows(kind))), Some(Metadata(store, ExternalId(), timestamp)))
                && db.Rows(kind) == Upserted(old(db.Rows(kind)))
      ensures forall k :: k != kind ==> db.Rows(k) == old(db.Rows(k))
      ensures KeepsOthers(old(db.Rows(kind)), db.Rows(kind))
      ensures UniqueExternal(old(db.Rows(kind))) ==> UniqueExternal(db.Rows(kind))
    {
      ghost var rows := db.Rows(kind);
      var pk, instance := GetOrCreateModel();
      assert UniqueExternal(rows) ==> UniqueExternal(db.Rows(kind)) by {
        if pk.Some? && UniqueExternal(rows) {
          ReplaceKeepsUnique(rows, pk.value, instance);
        }
      }
      ghost var touched := db.Rows(kind);
      assert pk.None? ==> FindExternal(touched, store, ExternalId()).None?;
      var key :- SaveFields(pk, instance);
      ghost var base := if pk.Some? then rows[pk.value].value else Record(None, map[], map[]);
      assert Filled(instance) == Saved(base);
      assert KeepsOthers(rows, db.Rows(kind)) by {
        WritesOnlyUpsertKey(rows, db.Rows(kind), key, store, ExternalId());
      }
      return Ok(Instance(kind, key, instance.metadata));
    }

    /** The instance once `save` has set its to-one fields and added to
        its to-many relations. */
    function Filled(instance: Record): Record
      requires Complete()
    {
      instance.(fields := Overwrite(instance.fields, toOneNames, validated),
                links := AddLinks(instance.links, toManyNames, validated))
    }

    /** The rest of `save` once the instance is found or created: `pk` is
        the row it was found at, if any. */
    method SaveFields(pk: Option<nat>, instance: Record) returns (r: Result<nat, Exception>)
      requires HasExternalId(validated) && instance.metadata == Some(Metadata(store, ExternalId(), timestamp))
      requires pk.None? ==> FindExternal(db.Rows(kind), store, ExternalId()).None?
      requires pk.Some? ==> pk.value < |db.Rows(kind)| && ImportedFrom(db.Rows(kind)[pk.value], store, ExternalId())
      modifies db`tables
      ensures r.Ok? <==> Complete()
      ensures r.Ok? ==> r.value == if pk.Some? then pk.value else |old(db.Rows(kind))|
      ensures r.Ok? ==> db.Rows(kind) == if pk.Some? then old(db.Rows(kind))[pk.value := Some(Filled(instance))]
                                          else old(db.Rows(kind)) + [Some(Filled(instance))]
      ensures forall k :: k != kind ==> db.Rows(k) == old(db.Rows(k))
      ensures var key := if pk.Some? then pk.value else |old(db.Rows(kind))|;
              && |old(db.Rows(kind))| <= |db.Rows(kind)| <= |old(db.Rows(kind))| + 1
              && forall j :: 0 <= j < |old(db.Rows(kind))| && j != key ==> db.Rows(kind)[j] == old(db.Rows(kind))[j]
      ensures UniqueExternal(old(db.Rows(kind))) ==> UniqueExternal(db.Rows(kind))
    {
      var fields :- AssignToOne(instance.fields);
      r := Persist(pk, instance.(fields := fields));
    }

    /** `instance.save()` followed by the to-many additions. */
    method Persist(pk: Option<nat>, instance: Record) returns (r: Result<nat, Exception>)
      requires HasExternalId(validated) && instance.metadata == Some(Metadata(store, ExternalId(), timestamp))
      requires pk.None? ==> FindExternal(db.Rows(kind), store, ExternalId()).None?
      requires pk.Some? ==> pk.value < |db.Rows(kind)| && ImportedFrom(db.Rows(kind)[pk.value], store, ExternalId())
      modifies db`tables
      ensures r.Ok? <==> ManyValues(toManyNames, validated)
      ensures r.Ok? ==> r.value == if pk.Some? then pk.value else |old(db.Rows(kind))|
      ensures r.Ok? ==> var filled := instance.(links := AddLinks(instance.links, toManyNames, validated));
                        db.Rows(kind) == if pk.Some? then old(db.Rows(kind))[pk.value := Some(filled)]
                                         else old(db.Rows(kind)) + [Some(filled)]
      ensures forall k :: k != kind ==> db.Rows(k) == old(db.Rows(k))
      ensures var key := if pk.Some? then pk.value else |old(db.Rows(kind))|;
              && |old(db.Rows(kind))| <= |db.Rows(kind)| <= |old(db.Rows(kind))| + 1
              && forall j :: 0 <= j < |old(db.Rows(kind))| && j != key ==> db.Rows(kind)[j] == old(db.Rows(kind))[j]
      ensures UniqueExternal(old(db.Rows(kind))) ==> UniqueExternal(db.Rows(kind))
    {
      var key := WriteInstance(pk, instance);
      var added := AddToMany(key);
      if added.Err? {
        return Err(added.error);
      }
      return Ok(key);
    }

    /** `instance.save()` in the middle of `save`: a new instance gets the
        next primary key, a found one is written back in place. */
    method WriteInstance(pk: Option<nat>, instance: Record) returns (key: nat)
      requires HasExternalId(validated) && instance.metadata == Some(Metadata(store, ExternalId(), timestamp))
      requires pk.None? ==> FindExternal(db.Rows(kind), store, ExternalId()).None?
      requires pk.Some? ==> pk.value < |db.Rows(kind)| && ImportedFrom(db.Rows(kind)[pk.value], store, ExternalId())
      modifies db`tables
      ensures key == if pk.Some? then pk.value else |old(db.Rows(kind))|
      ensures db.tables == old(db.tables)[kind := if pk.Some? then old(db.Rows(kind))[key := Some(instance)]
                                                   else old(db.Rows(kind)) + [Some(instance)]]
      ensures UniqueExternal(old(db.Rows(kind))) ==> UniqueExternal(db.Rows(kind))
    {
      if UniqueExternal(db.Rows(kind)) {
        if pk.None? {
          AppendKeepsUnique(db.Rows(kind), instance);
        } else {
          ReplaceKeepsUnique(db.Rows(kind), pk.value, instance);
        }
      }
      if pk.None? {
        key := db.Insert(kind, instance);
      } else {
        key := pk.value;
        db.Update(kind, key, instance);
      }
    }
  }

  /** `type(v).__name__` of a validated value that is not a list. */
  function ValueTypeName(v: Value): string {
    match v
    case Plain(j) => PyTypeName(j)
    case RefTo(k, _) => ClassName(k)
    case RefsTo(_, _) => "list"
  }
}
