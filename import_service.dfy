/** The import of one affiliated store's payload (`ImportTask` of the
    import service): the top-level kinds in dependency order, then each
    listing's embedded children and back-references, then the sweep of
    what this store no longer sends. */
module ImportService {
  import opened Wrappers
  import opened Exceptions
  import opened Json
  import opened Kinds
  import opened Store
  import opened ModelDicts
  import opened Serializers
  import Text
  import PyDict

  /** The "details" of an error record: a serializer's field errors, or a
      message of the back-reference fix-ups. */
  datatype Details = FieldErrors(errors: seq<FieldError>) | Message(text: string)

  /** One record of `errors`, `{"type": ..., "error": "validation",
      "details": ...}`; its "error" is always "validation". */
  datatype ImportError = ImportError(typeName: string, details: Details)

  /** The top-level payload keys and their kinds, in the order `run`
      imports them. */
  const ImportOrder: seq<(string, Kind)> :=
    [("image_types", ImageTypeKind), ("categories", CategoryKind), ("change_details", ChangeDetailKind),
     ("contact_types", ContactTypeKind), ("custom_field_types", CustomFieldTypeKind),
     ("listing_types", ListingTypeKind), ("tags", TagKind), ("custom_fields", CustomFieldKind),
     ("contacts", ContactKind), ("images", ImageKind), ("agencies", AgencyKind), ("intents", IntentKind),
     ("profiles", ProfileKind), ("listings", ListingKind), ("listing_activities", ListingActivityKind)]

  /** The children embedded in each listing, in the order they are saved. */
  const Embedded: seq<(string, Kind)> :=
    [("doc_urls", DocUrlKind), ("reviews", ReviewKind), ("screenshots", ScreenshotKind),
     ("custom_fields", CustomFieldValueKind)]

  /** The listing fields set after the import, and the kind each names. */
  const BackRefs: seq<(string, Kind)> :=
    [("required_listings", ListingKind), ("last_activity", ListingActivityKind),
     ("current_rejection", ListingActivityKind)]

  /** The kinds `clean_old_import_data` sweeps, in order. */
  const SweptKinds: seq<Kind> :=
    [ImageTypeKind, CategoryKind, ChangeDetailKind, ContactTypeKind, CustomFieldTypeKind, ListingTypeKind,
     TagKind, CustomFieldKind, ContactKind, ImageKind, AgencyKind, IntentKind, ProfileKind, ListingKind,
     ListingActivityKind]

  /** The keys of the result of `run` (besides "errors"). */
  const ResultKeys: seq<(string, Kind)> :=
    [("agencies", AgencyKind), ("categories", CategoryKind), ("contact_types", ContactTypeKind),
     ("contacts", ContactKind), ("custom_field_types", CustomFieldTypeKind), ("custom_fields", CustomFieldKind),
     ("image_types", ImageTypeKind), ("images", ImageKind), ("intents", IntentKind),
     ("listing_types", ListingTypeKind), ("listings", ListingKind), ("profiles", ProfileKind), ("tags", TagKind)]

  /** Each kind is imported at its rank, so every reference a serializer
      declares names a kind imported earlier in the run. */
  lemma ImportOrderRanks(i: nat)
    requires i < |ImportOrder|
    ensures Rank(ImportOrder[i].1) == i
  {
  }

  /** The sweep visits the imported kinds in the order they are imported. */
  lemma SweptAreImported(i: nat)
    requires i < |SweptKinds|
    ensures |SweptKinds| == |ImportOrder| && SweptKinds[i] == ImportOrder[i].1
  {
  }

  /** A reference declared by a top-level kind names a kind imported
      before it, and one declared by an embedded child names a top-level
      kind. */
  lemma DependenciesFirst(k: Kind, i: nat)
    requires i < |Fields(k)|
    requires Fields(k)[i].ftype.ReferenceField? || Fields(k)[i].ftype.ManyReferenceField?
    ensures Rank(k) < |ImportOrder| ==> exists j :: 0 <= j < Rank(k) && ImportOrder[j].1 == Fields(k)[i].ftype.target
    ensures Rank(k) == |ImportOrder| ==> exists j :: 0 <= j < |ImportOrder| && ImportOrder[j].1 == Fields(k)[i].ftype.target
  {
    assert i > 0;
    assert Fields(k)[i] == Declared(k)[i - 1];
    DeclaredSound(k, i - 1);
    var t := Fields(k)[i].ftype.target;
    RankedImported(t);
  }

  /** Every kind below the embedded ones is imported at its rank. */
  lemma RankedImported(t: Kind)
    ensures Rank(t) < |ImportOrder| ==> ImportOrder[Rank(t)].1 == t
  {
  }

  /** `key` occurs in `s` at position `i`. */
  predicate OccursAt(key: string, s: string, i: nat) {
    i + |key| <= |s| && s[i..i + |key|] == key
  }

  /** `key in s` for strings. */
  predicate Occurs(key: string, s: string) {
    exists i: nat :: i <= |s| && OccursAt(key, s, i)
  }

  /** `_get_import_data(key)`: the payload's value under `key`, or an empty
      list when the key is absent. `key not in data` and `data.get(key)`
      on a payload that is not an object test membership and then fail. */
  function GetImportData(data: Json, key: string): (r: Result<Json, Exception>)
    ensures r.Err? ==> !data.JObj?
    ensures data.JObj? && key in data.fields ==> r == Ok(data.fields[key])
  {
    match data
    case JObj(m) => Ok(if key in m then m[key] else JList([]))
    case JList(items) =>
      if JStr(key) in items then Err(AttributeError("'list' object has no attribute 'get'")) else Ok(JList([]))
    case JStr(s) =>
      if Occurs(key, s) then Err(AttributeError("'str' object has no attribute 'get'")) else Ok(JList([]))
    case _ => Err(TypeError("argument of type '" + PyTypeName(data) + "' is not iterable"))
  }

  /** The entries `for data in self._get_import_data(key)` visits. */
  function Entries(data: Json, key: string): Result<seq<Json>, Exception> {
    var j :- GetImportData(data, key);
    Iterate(j)
  }

  /** A top-level key the payload object leaves out has no entries. */
  lemma MissingKeyIsEmpty(data: Json, key: string)
    requires data.JObj? && key !in data.fields
    ensures Entries(data, key) == Ok([])
  {
  }

  /** `j[key]` with a string key. */
  function Subscript(j: Json, key: string): (r: Result<Json, Exception>)
    ensures r.Ok? <==> j.JObj? && key in j.fields
    ensures r.Ok? ==> r.value == j.fields[key]
    ensures j.JObj? && key !in j.fields ==> r == Err(KeyError(key))
  {
    match j
    case JObj(m) => if key in m then Ok(m[key]) else Err(KeyError(key))
    case JStr(_) => Err(TypeError("string indices must be integers"))
    case JList(_) => Err(TypeError("list indices must be integers or slices, not str"))
    case _ => Err(TypeError("'" + PyTypeName(j) + "' object is not subscriptable"))
  }

  /** `j[key] = v` with a string key, as a new value. */
  function SetItem(j: Json, key: string, v: Json): (r: Result<Json, Exception>)
    ensures r.Ok? <==> j.JObj?
    ensures r.Ok? ==> r.value == JObj(j.fields[key := v])
  {
    match j
    case JObj(m) => Ok(JObj(m[key := v]))
    case JList(_) => Err(TypeError("list indices must be integers or slices, not str"))
    case _ => Err(TypeError("'" + PyTypeName(j) + "' object does not support item assignment"))
  }

  /** What the import does with one entry of kind `k`, given the instances
      filed so far: it files the validated values, records one error, or
      raises (the entry cannot be validated, or `save` indexes a value the
      entry left out). An embedded child first has its parent listing's id
      written into its "listing". */
  datatype Outcome = Registered(values: map<string, Value>, id: int) | Rejected(error: ImportError) | Crashed

  function EntryOutcome(models: Registry, k: Kind, entry: Json, parent: Option<Json>): (r: Outcome)
    ensures r.Registered? ==> HasExternalId(r.values) && r.id == r.values["id"].j.i && Savable(k, r.values)
    ensures r.Rejected? ==> r.error.typeName == ClassName(k) && r.error.details.FieldErrors?
    ensures parent.None? && entry.JNull? ==>
              r == Rejected(ImportError(ClassName(k), FieldErrors([FieldError("non_field_errors", "No data provided")])))
    ensures parent.None? && !entry.JObj? && !entry.JNull? ==>
              r == Rejected(ImportError(ClassName(k), FieldErrors([FieldError("non_field_errors",
                     "Invalid data. Expected a dictionary, but got " + PyTypeName(entry) + ".")])))
    ensures parent.Some? && !entry.JObj? ==> r.Crashed?
  {
    var prepared := if parent.Some? then SetItem(entry, "listing", parent.value) else Ok(entry);
    match prepared
    case Err(_) => Crashed
    case Ok(d) => Classify(k, Validate(models, k, d))
  }

  /** What becomes of an entry of kind `k` once validated: `is_valid()`
      raising aborts, its errors are recorded, or `save` files it. Every
      validated entry carries an integer "id" (`ValidEntry`). */
  function Classify(k: Kind, validation: Result<Validation, Exception>): (r: Outcome)
    ensures r.Registered? ==> HasExternalId(r.values) && r.id == r.values["id"].j.i && Savable(k, r.values)
  {
    match validation
    case Err(_) => Crashed
    case Ok(Invalid(errs)) => Rejected(ImportError(ClassName(k), FieldErrors(errs)))
    case Ok(Valid(values)) =>
      if HasExternalId(values) && Savable(k, values) then Registered(values, values["id"].j.i) else Crashed
  }

  /** The outcome of an entry, by the result of validating `d`, the entry
      as prepared for its serializer. */
  lemma OutcomeOfValidation(models: Registry, k: Kind, entry: Json, parent: Option<Json>, d: Json)
    requires (if parent.Some? then SetItem(entry, "listing", parent.value) else Ok(entry)) == Ok(d)
    ensures Validate(models, k, d).Ok? && Validate(models, k, d).value.Valid? ==>
              HasExternalId(Validate(models, k, d).value.data)
    ensures EntryOutcome(models, k, entry, parent) == Classify(k, Validate(models, k, d))
  {
    var v := Validate(models, k, d);
    if v.Ok? && v.value.Valid? {
      ValidEntry(models, k, d, v.value.data);
    }
  }

  /** The errors recorded and the external ids filed, in entry order, by
      one pass over the entries. */
  datatype Pass = Pass(errors: seq<ImportError>, ids: seq<int>)

  /** The pass extended by one more entry's outcome. */
  function Advance(pass: Pass, o: Outcome): Option<Pass> {
    match o
    case Crashed => None
    case Rejected(e) => Some(pass.(errors := pass.errors + [e]))
    case Registered(_, id) => Some(pass.(ids := pass.ids + [id]))
  }

  /** The errors an outcome records. */
  function NewErrors(o: Outcome): seq<ImportError> {
    if o.Rejected? then [o.error] else []
  }

  /** The external ids an outcome files. */
  function NewIds(o: Outcome): set<int> {
    if o.Registered? then {o.id} else {}
  }

  lemma AdvanceParts(pass: Pass, o: Outcome)
    requires !o.Crashed?
    ensures Advance(pass, o).Some?
    ensures Advance(pass, o).value.errors == pass.errors + NewErrors(o)
    ensures (set x | x in Advance(pass, o).value.ids) == (set x | x in pass.ids) + NewIds(o)
  {
    if o.Registered? {
      assert (set x | x in pass.ids + [o.id]) == (set x | x in pass.ids) + {o.id};
    }
  }

  /** The pass over `entries` of kind `k` against a fixed registry; None
      when an entry raises. */
  function RunEntries(models: Registry, k: Kind, entries: seq<Json>, parent: Option<Json>): Option<Pass>
    decreases |entries|
  {
    if entries == [] then Some(Pass([], []))
    else
      match RunEntries(models, k, entries[..|entries| - 1], parent)
      case None => None
      case Some(pass) => Advance(pass, EntryOutcome(models, k, entries[|entries| - 1], parent))
  }

  /** Each entry either files one instance or records one error. */
  lemma {:induction false} EachEntryCounted(models: Registry, k: Kind, entries: seq<Json>, parent: Option<Json>)
    requires RunEntries(models, k, entries, parent).Some?
    ensures var pass := RunEntries(models, k, entries, parent).value;
            |pass.errors| + |pass.ids| == |entries|
    decreases |entries|
  {
    if entries != [] {
      EachEntryCounted(models, k, entries[..|entries| - 1], parent);
    }
  }

  /** Once an entry raises, the pass raises. */
  lemma {:induction false} CrashStops(models: Registry, k: Kind, entries: seq<Json>, parent: Option<Json>, i: nat)
    requires i <= |entries| && RunEntries(models, k, entries[..i], parent).None?
    ensures RunEntries(models, k, entries, parent).None?
    decreases |entries| - i
  {
    if i < |entries| {
      assert entries[..i + 1][..i] == entries[..i];
      CrashStops(models, k, entries, parent, i + 1);
    } else {
      assert entries[..i] == entries;
    }
  }

  /** One more entry extends the pass by its outcome. */
  lemma RunEntriesStep(models: Registry, k: Kind, entries: seq<Json>, parent: Option<Json>, i: nat)
    requires i < |entries|
    ensures RunEntries(models, k, entries[..i + 1], parent)
            == match RunEntries(models, k, entries[..i], parent)
               case None => None
               case Some(pass) => Advance(pass, EntryOutcome(models, k, entries[i], parent))
  {
    assert entries[..i + 1][..i] == entries[..i];
  }

  /** The errors of one embedded kind of a listing: its children, each
      given the listing's id; None when that raises. */
  function ChildErrors(models: Registry, listing: Json, child: (string, Kind)): Option<seq<ImportError>> {
    match Subscript(listing, child.0)
    case Err(_) => None
    case Ok(children) =>
      match Subscript(listing, "id")
      case Err(_) => None
      case Ok(id) =>
        match Iterate(children)
        case Err(_) => None
        case Ok(items) =>
          match RunEntries(models, child.1, items, Some(id))
          case None => None
          case Some(pass) => Some(pass.errors)
  }

  /** What a back-reference fix-up does: nothing (the field is None), record
      that the id is unknown, or point the imported listing at the row
      found. */
  datatype BackRef = NoRef | Unresolved(error: ImportError) | Linked(listingPk: nat, targetPk: nat)

  /** `_add_required_listings`, `_add_last_activity` and
      `_add_current_rejection`, as the plan they carry out. */
  function BackRefPlan(models: Registry, listing: Json, field: string, target: Kind): (r: Result<BackRef, Exception>)
    ensures r == Ok(NoRef) <==> listing.JObj? && field in listing.fields && listing.fields[field].JNull?
    ensures listing.JObj? && field in listing.fields && listing.fields[field].JInt?
            && Lookup(models, target, listing.fields[field].i).None? ==>
              r == Ok(Unresolved(ImportError("Listing", Message(field + " with id="
                                   + Text.IntToString(listing.fields[field].i) + " not found"))))
    ensures r.Ok? && r.value.Unresolved? ==> r.value.error.typeName == "Listing" && r.value.error.details.Message?
    ensures r.Ok? && r.value.Linked? ==>
              && listing.JObj? && field in listing.fields && "id" in listing.fields
              && r.value.targetPk in FiledPks(models, target)
              && r.value.listingPk in FiledPks(models, ListingKind)
  {
    var id :- Subscript(listing, field);
    if id.JNull? then Ok(NoRef)
    else
      var found :- LookupJson(models, target, id);
      match found
      case None =>
        var text :- FormatD(id);
        Ok(Unresolved(ImportError("Listing", Message(field + " with id=" + text + " not found"))))
      case Some(t) =>
        var listingId :- Subscript(listing, "id");
        var imported :- LookupJson(models, ListingKind, listingId);
        match imported
        case None => Err(AttributeError("'NoneType' object has no attribute '" + field + "'"))
        case Some(x) =>
          assert t.pk in FiledPks(models, target) by {
            var e := if id.JInt? then id.i else if id.b then 1 else 0;
            assert e in models[target].items && models[target].items[e] == t;
          }
          assert x.pk in FiledPks(models, ListingKind) by {
            var e := if listingId.JInt? then listingId.i else if listingId.b then 1 else 0;
            assert e in models[ListingKind].items && models[ListingKind].items[e] == x;
          }
          Ok(Linked(x.pk, t.pk))
  }

  /** The errors of a sequence of steps, each of which records some errors
      or raises: the first `n` steps' errors in order, or None once one
      raises. */
  function Collect(parts: seq<Option<seq<ImportError>>>, n: nat): Option<seq<ImportError>>
    requires n <= |parts|
  {
    if n == 0 then Some([])
    else
      match Collect(parts, n - 1)
      case None => None
      case Some(before) =>
        match parts[n - 1]
        case None => None
        case Some(es) => Some(before + es)
  }

  /** Once one step raises, the sequence raises. */
  lemma {:induction false} CollectStops(parts: seq<Option<seq<ImportError>>>, i: nat, n: nat)
    requires i <= n <= |parts| && Collect(parts, i).None?
    ensures Collect(parts, n).None?
    decreases n
  {
    if n > i {
      CollectStops(parts, i, n - 1);
    }
  }

  /** The number of errors the first `n` steps record. */
  function TotalCount(parts: seq<Option<seq<ImportError>>>, n: nat): nat
    requires n <= |parts|
  {
    if n == 0 then 0 else TotalCount(parts, n - 1) + (if parts[n - 1].Some? then |parts[n - 1].value| else 0)
  }

  /** The sequence raises exactly when one of its steps does; otherwise it
      records every step's errors. */
  lemma {:induction false} CollectAll(parts: seq<Option<seq<ImportError>>>, n: nat)
    requires n <= |parts|
    ensures Collect(parts, n).Some? <==> forall i :: 0 <= i < n ==> parts[i].Some?
    ensures Collect(parts, n).Some? ==> |Collect(parts, n).value| == TotalCount(parts, n)
    decreases n
  {
    if n > 0 {
      CollectAll(parts, n - 1);
    }
  }

  /** The errors of each step, the steps being the elements of `xs`. */
  function Parts<T>(f: T -> Option<seq<ImportError>>, xs: seq<T>): (r: seq<Option<seq<ImportError>>>)
    ensures |r| == |xs|
  {
    if xs == [] then [] else Parts(f, xs[..|xs| - 1]) + [f(xs[|xs| - 1])]
  }

  lemma {:induction false} PartsAt<T>(f: T -> Option<seq<ImportError>>, xs: seq<T>, i: nat)
    requires i < |xs|
    ensures Parts(f, xs)[i] == f(xs[i])
    decreases |xs|
  {
    var n := |xs| - 1;
    if i < n {
      PartsAt(f, xs[..n], i);
    }
  }

  /** The errors of each embedded kind of a listing. */
  function ChildParts(models: Registry, listing: Json, children: seq<(string, Kind)>): (r: seq<Option<seq<ImportError>>>)
    ensures |r| == |children|
  {
    Parts(c => ChildErrors(models, listing, c), children)
  }

  lemma ChildPartsAt(models: Registry, listing: Json, children: seq<(string, Kind)>, i: nat)
    requires i < |children|
    ensures ChildParts(models, listing, children)[i] == ChildErrors(models, listing, children[i])
  {
    PartsAt(c => ChildErrors(models, listing, c), children, i);
  }

  /** The errors of the listing's embedded children. */
  function EmbeddedErrors(models: Registry, listing: Json): Option<seq<ImportError>> {
    Collect(ChildParts(models, listing, Embedded), |Embedded|)
  }

  /** The error one back-reference fix-up records: the message of an
      unresolved id, or none. */
  function BackRefError(models: Registry, listing: Json, ref: (string, Kind)): Option<seq<ImportError>> {
    match BackRefPlan(models, listing, ref.0, ref.1)
    case Err(_) => None
    case Ok(Unresolved(e)) => Some([e])
    case Ok(_) => Some([])
  }

  /** The errors of each back-reference fix-up of a listing. */
  function BackRefParts(models: Registry, listing: Json, refs: seq<(string, Kind)>): (r: seq<Option<seq<ImportError>>>)
    ensures |r| == |refs|
  {
    Parts(ref => BackRefError(models, listing, ref), refs)
  }

  lemma BackRefPartsAt(models: Registry, listing: Json, refs: seq<(string, Kind)>, i: nat)
    requires i < |refs|
    ensures BackRefParts(models, listing, refs)[i] == BackRefError(models, listing, refs[i])
  {
    PartsAt(ref => BackRefError(models, listing, ref), refs, i);
  }

  /** The errors of the listing's back-reference fix-ups. */
  function BackRefErrors(models: Registry, listing: Json): Option<seq<ImportError>> {
    Collect(BackRefParts(models, listing, BackRefs), |BackRefs|)
  }

  /** The errors the second phase records for one listing entry. */
  function ListingErrors(models: Registry, listing: Json): Option<seq<ImportError>> {
    match EmbeddedErrors(models, listing)
    case None => None
    case Some(children) =>
      match BackRefErrors(models, listing)
      case None => None
      case Some(refs) => Some(children + refs)
  }

  /** The errors of each listing entry. */
  function ListingParts(models: Registry, listings: seq<Json>): (r: seq<Option<seq<ImportError>>>)
    ensures |r| == |listings|
  {
    Parts(l => ListingErrors(models, l), listings)
  }

  /** Part `i` is the errors of listing entry `i`. */
  lemma ListingPartsAt(models: Registry, listings: seq<Json>, i: nat)
    requires i < |listings|
    ensures ListingParts(models, listings)[i] == ListingErrors(models, listings[i])
  {
    PartsAt(l => ListingErrors(models, l), listings, i);
  }

  /** The errors of the second phase over the listing entries. */
  function ListingsErrors(models: Registry, listings: seq<Json>): Option<seq<ImportError>> {
    Collect(ListingParts(models, listings), |listings|)
  }

  /** Each back-reference fix-up records at most one error, a "Listing"
      message. */
  lemma BackRefErrorShape(models: Registry, listing: Json, ref: (string, Kind))
    requires BackRefError(models, listing, ref).Some?
    ensures var es := BackRefError(models, listing, ref).value;
            |es| <= 1 && forall e :: e in es ==> e.typeName == "Listing" && e.details.Message?
  {
  }

  /** A step that records its errors extends the sequence's errors. */
  lemma CollectStep(parts: seq<Option<seq<ImportError>>>, i: nat, acc: seq<ImportError>)
    requires i < |parts| && Collect(parts, i) == Some(acc) && parts[i].Some?
    ensures Collect(parts, i + 1) == Some(acc + parts[i].value)
  {
  }

  lemma AppendErrors(e0: seq<ImportError>, acc: seq<ImportError>, es: seq<ImportError>)
    ensures e0 + acc + es == e0 + (acc + es)
  {
  }

  /** `row.field = value`: the live row at `pk` with one field replaced. */
  predicate FieldSet(before: Table, after: Table, pk: nat, field: string, v: Value) {
    pk < |before| && before[pk].Some?
    && after == before[pk := Some(before[pk].value.(fields := before[pk].value.fields[field := v]))]
  }

  /** The row at `pk` is live and carries the metadata `md`. */
  predicate FiledAt(t: Table, pk: nat, md: Metadata) {
    pk < |t| && t[pk].Some? && t[pk].value.metadata == Some(md)
  }

  /** The rows of kind `k` in a snapshot of the tables. */
  function RowsOf(tables: map<Kind, Table>, k: Kind): Table {
    if k in tables then tables[k] else []
  }

  /** What the run has filed: every instance in the registry is of the
      kind it is filed under, carries this store, its external id and the
      import timestamp, and is a live row of its kind carrying the same. */
  ghost predicate Filed(models: Registry, tables: map<Kind, Table>, store: nat, ts: int) {
    forall k, e :: Lookup(models, k, e).Some? ==>
      && Lookup(models, k, e).value.kind == k
      && Lookup(models, k, e).value.metadata == Some(Metadata(store, e, ts))
      && FiledAt(RowsOf(tables, k), Lookup(models, k, e).value.pk, Metadata(store, e, ts))
  }

  /** Every live row stamped with this store and timestamp stays live with
      the same stamp. */
  ghost predicate KeepsStamped(before: Table, after: Table, store: nat, ts: int) {
    forall pk: nat, e :: FiledAt(before, pk, Metadata(store, e, ts)) ==> FiledAt(after, pk, Metadata(store, e, ts))
  }

  /** The upsert of `save` keeps every stamped row stamped, and leaves the
      saved row stamped. */
  lemma UpsertKeepsStamped(s: ImportSerializer, rows: Table)
    requires HasExternalId(s.validated) && s.Complete()
    ensures KeepsStamped(rows, s.Upserted(rows), s.store, s.timestamp)
    ensures FiledAt(s.Upserted(rows), s.UpsertKey(rows), Metadata(s.store, s.ExternalId(), s.timestamp))
  {
  }

  /** The sweep deletes no row stamped with the import timestamp. */
  lemma SweepKeepsStamped(t: Table, store: nat, ts: int)
    ensures KeepsStamped(t, Sweep(t, store, ts), store, ts)
  {
  }

  /** Rewriting a live row with its metadata unchanged keeps every stamp. */
  lemma UpdateKeepsStamped(t: Table, pk: nat, r: Record, store: nat, ts: int)
    requires pk < |t| && t[pk].Some? && r.metadata == t[pk].value.metadata
    ensures KeepsStamped(t, t[pk := Some(r)], store, ts)
  {
  }

  /** A write to the rows of one kind that keeps every stamp keeps what the
      run has filed. */
  lemma FiledAfterWrite(models: Registry, t0: map<Kind, Table>, t1: map<Kind, Table>, k: Kind, store: nat, ts: int)
    requires Filed(models, t0, store, ts)
    requires forall k' :: k' != k ==> RowsOf(t1, k') == RowsOf(t0, k')
    requires KeepsStamped(RowsOf(t0, k), RowsOf(t1, k), store, ts)
    ensures Filed(models, t1, store, ts)
  {
  }

  /** Filing a stamped instance under its external id keeps what the run
      has filed. */
  lemma FiledAfterAdd(m0: Registry, m1: Registry, t: map<Kind, Table>, x: Instance, e: int, store: nat, ts: int)
    requires Filed(m0, t, store, ts)
    requires x.metadata == Some(Metadata(store, e, ts)) && FiledAt(RowsOf(t, x.kind), x.pk, Metadata(store, e, ts))
    requires Lookup(m1, x.kind, e) == Some(x)
    requires forall k, e' :: k != x.kind || e' != e ==> Lookup(m1, k, e') == Lookup(m0, k, e')
    ensures Filed(m1, t, store, ts)
  {
  }

  /** A primary key of a filed instance names a live row of its kind. */
  lemma FiledRowLive(models: Registry, tables: map<Kind, Table>, store: nat, ts: int, k: Kind, pk: nat)
    requires Filed(models, tables, store, ts) && pk in FiledPks(models, k)
    ensures pk < |RowsOf(tables, k)| && RowsOf(tables, k)[pk].Some?
  {
    var e :| e in models[k].items && models[k].items[e].pk == pk;
    assert Lookup(models, k, e).Some?;
  }

  /** Every instance `models.list` returns is of its kind, carries this
      store and the import timestamp, and is a live row of its kind. */
  lemma ListedFiled(models: Registry, tables: map<Kind, Table>, store: nat, ts: int, k: Kind, x: Instance)
    requires ValidRegistry(models) && Filed(models, tables, store, ts) && x in ListOf(models, k)
    ensures x.kind == k && x.metadata.Some? && x.metadata.value.store == store && x.metadata.value.lastUpdated == ts
    ensures FiledAt(RowsOf(tables, k), x.pk, x.metadata.value)
  {
    ListIsContents(models, k, x);
    var e :| Lookup(models, k, e) == Some(x);
  }

  /** Every instance in the result lists is of the list's kind, carries
      this store and the import timestamp, and is a live row of its kind. */
  ghost predicate ListsStamped(lists: seq<(string, seq<Instance>)>, tables: map<Kind, Table>, store: nat, ts: int) {
    && |lists| <= |ResultKeys|
    && forall i, x :: 0 <= i < |lists| && x in lists[i].1 ==>
         && x.kind == ResultKeys[i].1
         && x.metadata.Some? && x.metadata.value.store == store && x.metadata.value.lastUpdated == ts
         && FiledAt(RowsOf(tables, x.kind), x.pk, x.metadata.value)
  }

  /** The lists `run` returns hold only what the run filed. */
  lemma ResultStamped(models: Registry, tables: map<Kind, Table>, store: nat, ts: int, lists: seq<(string, seq<Instance>)>)
    requires ValidRegistry(models) && Filed(models, tables, store, ts) && |lists| <= |ResultKeys|
    requires forall i :: 0 <= i < |lists| ==> lists[i].1 == ListOf(models, ResultKeys[i].1)
    ensures ListsStamped(lists, tables, store, ts)
  {
    forall i, x | 0 <= i < |lists| && x in lists[i].1
      ensures x.kind == ResultKeys[i].1
      ensures x.metadata.Some? && x.metadata.value.store == store && x.metadata.value.lastUpdated == ts
      ensures FiledAt(RowsOf(tables, x.kind), x.pk, x.metadata.value)
    {
      ListedFiled(models, tables, store, ts, ResultKeys[i].1, x);
    }
  }

  /** After the sweep no row of the store is older than the timestamp. */
  predicate NoStale(t: Table, store: nat, ts: int) {
    forall i :: 0 <= i < |t| ==> !Stale(t[i], store, ts)
  }

  lemma SweepLeavesNoStale(t: Table, store: nat, ts: int)
    ensures NoStale(Sweep(t, store, ts), store, ts)
  {
    forall i | 0 <= i < |t|
      ensures !Stale(Sweep(t, store, ts)[i], store, ts)
    {
      SweepDeletesExactlyStale(t, store, ts, i);
    }
  }

  /** An entry's outcome ignores what is filed under its own kind. */
  lemma OutcomeFrame(m1: Registry, m2: Registry, k: Kind, entry: Json, parent: Option<Json>)
    requires SameExcept(m1, m2, k)
    ensures EntryOutcome(m1, k, entry, parent) == EntryOutcome(m2, k, entry, parent)
  {
    var prepared := if parent.Some? then SetItem(entry, "listing", parent.value) else Ok(entry);
    if prepared.Ok? {
      ValidateFrame(m1, m2, k, prepared.value);
    }
  }

  lemma SameExceptTrans(m0: Registry, m1: Registry, m2: Registry, k: Kind)
    requires SameExcept(m0, m1, k) && SameExcept(m1, m2, k)
    ensures SameExcept(m0, m2, k)
  {
  }

  /** The instances filed under kind `k`, by external id. */
  function KindKeys(models: Registry, k: Kind): set<int> {
    if k in models then models[k].items.Keys else {}
  }

  /** The result of `run`: `models.list` of each result kind, by key, and
      the errors. */
  datatype RunResult = RunResult(lists: seq<(string, seq<Instance>)>, errors: seq<ImportError>)

  /** The lists of the result, in the order of its keys. */
  function ResultLists(models: Registry, n: nat): (r: seq<(string, seq<Instance>)>)
    requires ValidRegistry(models) && n <= |ResultKeys|
    ensures |r| == n && forall i :: 0 <= i < n ==> r[i] == (ResultKeys[i].0, ListOf(models, ResultKeys[i].1))
  {
    if n == 0 then [] else ResultLists(models, n - 1) + [(ResultKeys[n - 1].0, ListOf(models, ResultKeys[n - 1].1))]
  }

  /** One import run of one store's payload, with its registry of filed
      instances and its list of errors. */
  class ImportTask {
    const importData: Json
    const store: nat
    const timestamp: int
    const db: Database
    const models: ModelDict
    var errors: seq<ImportError>

    /** The registry is well formed and holds only what this run filed. */
    ghost predicate Valid()
      reads models`models, db`tables
    {
      models.Valid() && Filed(models.models, db.tables, store, timestamp)
    }

    /** `ImportTask(import_data, affiliated_store, import_timestamp=...)`:
        the timestamp is the one given, or the current time `now`. */
    constructor (importData: Json, store: nat, db: Database, importTimestamp: Option<int>, now: int)
      ensures this.importData == importData && this.store == store && this.db == db
      ensures timestamp == if importTimestamp.Some? then importTimestamp.value else now
      ensures fresh(models) && models.models == map[] && errors == []
      ensures Valid()
    {
      this.importData := importData;
      this.store := store;
      this.db := db;
      this.timestamp := if importTimestamp.Some? then importTimestamp.value else now;
      this.models := new ModelDict();
      this.errors := [];
    }

    /** `serializer.save()` for values of kind `k` validated against the
        registry: the saved row is live and stamped, and every instance
        already filed stays filed. */
    method SaveEntry(k: Kind, values: map<string, Value>) returns (r: Result<Instance, Exception>)
      requires Valid() && HasExternalId(values)
      modifies db`tables
      ensures r.Ok? <==> Savable(k, values)
      ensures r.Ok? ==>
                && r.value.kind == k
                && r.value.metadata == Some(Metadata(store, values["id"].j.i, timestamp))
                && FiledAt(RowsOf(db.tables, k), r.value.pk, Metadata(store, values["id"].j.i, timestamp))
                && Valid()
    {
      var serializer := new ImportSerializer(k, store, timestamp, db, values);
      ghost var t0 := db.tables;
      ghost var rows := db.Rows(k);
      r := serializer.Save();
      if r.Ok? {
        UpsertKeepsStamped(serializer, rows);
        forall k' | k' != k
          ensures RowsOf(db.tables, k') == RowsOf(t0, k')
        {
          assert db.Rows(k') == old(db.Rows(k'));
        }
        FiledAfterWrite(models.models, t0, db.tables, k, store, timestamp);
      }
    }

    /** One iteration of `_import_model_type`: validate the entry against
        the registry; record the serializer's errors, or save it and file
        the instance. */
    method ImportEntry(k: Kind, entry: Json) returns (r: Result<(), Exception>)
      requires Valid()
      modifies this`errors, models`models, db`tables
      ensures var outcome := EntryOutcome(old(models.models), k, entry, None);
              && (r.Ok? <==> !outcome.Crashed?)
              && (r.Ok? ==> errors == old(errors) + NewErrors(outcome))
              && (outcome.Rejected? ==> models.models == old(models.models))
              && (r.Ok? ==> KindKeys(models.models, k) == KindKeys(old(models.models), k) + NewIds(outcome))
              && (r.Ok? ==> SameExcept(old(models.models), models.models, k))
      ensures r.Ok? ==> Valid()
    {
      OutcomeOfValidation(models.models, k, entry, None, entry);
      var validation :- Validate(models.models, k, entry);
      match validation
      case Invalid(errs) =>
        errors := errors + [ImportError(ClassName(k), FieldErrors(errs))];
        return Ok(());
      case Valid(values) =>
        r := FileEntry(k, values);
    }

    /** `instance = serializer.save(); self.models.add(instance)`. */
    method FileEntry(k: Kind, values: map<string, Value>) returns (r: Result<(), Exception>)
      requires Valid() && HasExternalId(values)
      modifies models`models, db`tables
      ensures r.Ok? <==> Savable(k, values)
      ensures r.Ok? ==>
                && KindKeys(models.models, k) == KindKeys(old(models.models), k) + {values["id"].j.i}
                && SameExcept(old(models.models), models.models, k)
                && Valid()
    {
      var instance :- SaveEntry(k, values);
      ghost var m0 := models.models;
      var added := models.Add(instance);
      AddFiles(m0, instance, values["id"].j.i);
      FiledAfterAdd(m0, models.models, db.tables, instance, values["id"].j.i, store, timestamp);
      return Ok(());
    }

    /** The errors recorded and the registry filled by a pass of kind `k`
        that started from registry `m0` and errors `e0`. */
    ghost predicate KindProgress(m0: Registry, e0: seq<ImportError>, k: Kind, pass: Pass)
      reads this, models`models
    {
      && errors == e0 + pass.errors
      && KindKeys(models.models, k) == KindKeys(m0, k) + (set id | id in pass.ids)
      && SameExcept(m0, models.models, k)
    }

    /** Entry `i` of the loop of `_import_model_type`. */
    method ImportStep(ghost m0: Registry, ghost e0: seq<ImportError>, k: Kind, entries: seq<Json>, i: nat, ghost pass: Pass)
      returns (r: Result<(), Exception>, ghost next: Pass)
      requires Valid() && i < |entries|
      requires RunEntries(m0, k, entries[..i], None) == Some(pass) && KindProgress(m0, e0, k, pass)
      modifies this`errors, models`models, db`tables
      ensures r.Ok? ==> Valid() && RunEntries(m0, k, entries[..i + 1], None) == Some(next) && KindProgress(m0, e0, k, next)
      ensures r.Err? ==> RunEntries(m0, k, entries[..i + 1], None).None?
    {
      ghost var m1 := models.models;
      ghost var outcome := EntryOutcome(m0, k, entries[i], None);
      OutcomeFrame(m0, m1, k, entries[i], None);
      RunEntriesStep(m0, k, entries, None, i);
      r := ImportEntry(k, entries[i]);
      next := pass;
      if r.Ok? {
        SameExceptTrans(m0, m1, models.models, k);
        AdvanceParts(pass, outcome);
        next := Advance(pass, outcome).value;
      }
    }

    /** `_import_model_type(key, serializer, cls)`: every entry under `key`
        in turn; the registry grows by the entries filed, the errors by the
        entries rejected, and no other kind is touched. */
    method ImportModelType(key: string, k: Kind) returns (r: Result<(), Exception>)
      requires Valid()
      modifies this`errors, models`models, db`tables
      ensures r.Ok? <==> Entries(importData, key).Ok? && RunEntries(old(models.models), k, Entries(importData, key).value, None).Some?
      ensures r.Ok? ==>
                var pass := RunEntries(old(models.models), k, Entries(importData, key).value, None).value;
                && errors == old(errors) + pass.errors
                && KindKeys(models.models, k) == KindKeys(old(models.models), k) + (set id | id in pass.ids)
                && SameExcept(old(models.models), models.models, k)
      ensures r.Ok? ==> Valid()
    {
      var entries :- Entries(importData, key);
      ghost var m0 := models.models;
      ghost var e0 := errors;
      ghost var pass := Pass([], []);
      assert entries[..0] == [];
      for i := 0 to |entries|
        invariant Valid()
        invariant RunEntries(m0, k, entries[..i], None) == Some(pass) && KindProgress(m0, e0, k, pass)
      {
        var step;
        step, pass := ImportStep(m0, e0, k, entries, i, pass);
        if step.Err? {
          CrashStops(m0, k, entries, None, i + 1);
          return step;
        }
      }
      assert entries[..|entries|] == entries;
      return Ok(());
    }

    /** One iteration of `_serialize_embedded`: the child gets the parent's
        id under "listing", is validated, and is saved or has its errors
        recorded; it is not filed in the registry. */
    method EmbedEntry(k: Kind, entry: Json, parentId: Json) returns (r: Result<Option<Instance>, Exception>)
      requires Valid()
      modifies this`errors, db`tables
      ensures var outcome := EntryOutcome(models.models, k, entry, Some(parentId));
              && (r.Ok? <==> !outcome.Crashed?)
              && (r.Ok? ==> errors == old(errors) + NewErrors(outcome) && Valid())
              && (r.Ok? ==> (r.value.Some? <==> outcome.Registered?))
              && (r.Ok? && r.value.Some? ==>
                    r.value.value.kind == k && r.value.value.metadata == Some(Metadata(store, outcome.id, timestamp)))
    {
      var d :- SetItem(entry, "listing", parentId);
      OutcomeOfValidation(models.models, k, entry, Some(parentId), d);
      var validation :- Validate(models.models, k, d);
      match validation
      case Invalid(errs) =>
        errors := errors + [ImportError(ClassName(k), FieldErrors(errs))];
        return Ok(None);
      case Valid(values) =>
        var instance :- SaveEntry(k, values);
        return Ok(Some(instance));
    }

    /** Child `i` of the loop of `_serialize_embedded`. */
    method EmbedStep(ghost e0: seq<ImportError>, k: Kind, items: seq<Json>, parentId: Json, i: nat, ghost pass: Pass)
      returns (r: Result<Option<Instance>, Exception>, ghost next: Pass)
      requires Valid() && i < |items| && errors == e0 + pass.errors
      requires RunEntries(models.models, k, items[..i], Some(parentId)) == Some(pass)
      modifies this`errors, db`tables
      ensures r.Ok? ==>
                && Valid() && errors == e0 + next.errors
                && RunEntries(models.models, k, items[..i + 1], Some(parentId)) == Some(next)
                && |next.ids| == |pass.ids| + (if r.value.Some? then 1 else 0)
                && (r.value.Some? ==> r.value.value.kind == k)
      ensures r.Err? ==> RunEntries(models.models, k, items[..i + 1], Some(parentId)).None?
    {
      ghost var outcome := EntryOutcome(models.models, k, items[i], Some(parentId));
      RunEntriesStep(models.models, k, items, Some(parentId), i);
      r := EmbedEntry(k, items[i], parentId);
      next := pass;
      if r.Ok? {
        AdvanceParts(pass, outcome);
        next := Advance(pass, outcome).value;
      }
    }

    /** `_serialize_embedded(serializer, cls, data, "listing", parent_pk)`:
        the children saved, in order; every child is either saved or has
        its errors recorded. */
    method SerializeEmbedded(k: Kind, children: Json, parentId: Json) returns (r: Result<seq<Instance>, Exception>)
      requires Valid()
      modifies this`errors, db`tables
      ensures r.Ok? <==> Iterate(children).Ok? && RunEntries(models.models, k, Iterate(children).value, Some(parentId)).Some?
      ensures r.Ok? ==>
                var pass := RunEntries(models.models, k, Iterate(children).value, Some(parentId)).value;
                && errors == old(errors) + pass.errors
                && |r.value| == |pass.ids|
                && (forall x :: x in r.value ==> x.kind == k)
                && Valid()
    {
      var items :- Iterate(children);
      r := EmbedItems(k, items, parentId);
    }

    /** The loop of `_serialize_embedded` over the children. */
    method EmbedItems(k: Kind, items: seq<Json>, parentId: Json) returns (r: Result<seq<Instance>, Exception>)
      requires Valid()
      modifies this`errors, db`tables
      ensures r.Ok? <==> RunEntries(models.models, k, items, Some(parentId)).Some?
      ensures r.Ok? ==>
                var pass := RunEntries(models.models, k, items, Some(parentId)).value;
                && errors == old(errors) + pass.errors
                && |r.value| == |pass.ids|
                && (forall x :: x in r.value ==> x.kind == k)
                && Valid()
    {
      ghost var e0 := errors;
      ghost var pass := Pass([], []);
      var instances: seq<Instance> := [];
      assert items[..0] == [];
      for i := 0 to |items|
        invariant Valid() && errors == e0 + pass.errors
        invariant RunEntries(models.models, k, items[..i], Some(parentId)) == Some(pass)
        invariant |instances| == |pass.ids| && forall x :: x in instances ==> x.kind == k
      {
        var step;
        step, pass := EmbedStep(e0, k, items, parentId, i, pass);
        if step.Err? {
          CrashStops(models.models, k, items, Some(parentId), i + 1);
          return Err(step.error);
        }
        if step.value.Some? {
          instances := instances + [step.value.value];
        }
      }
      assert items[..|items|] == items;
      return Ok(instances);
    }

    /** `_serialize_embedded` of one embedded kind of a listing, with its
        arguments `listing[key]` and `listing["id"]` evaluated first. */
    method EmbedChild(listing: Json, child: (string, Kind)) returns (r: Result<seq<Instance>, Exception>)
      requires Valid()
      modifies this`errors, db`tables
      ensures r.Ok? <==> ChildErrors(models.models, listing, child).Some?
      ensures r.Ok? ==> errors == old(errors) + ChildErrors(models.models, listing, child).value && Valid()
    {
      var children :- Subscript(listing, child.0);
      var id :- Subscript(listing, "id");
      r := SerializeEmbedded(child.1, children, id);
    }

    /** The four embedded kinds of a listing, in order. */
    method EmbedChildren(listing: Json) returns (r: Result<(), Exception>)
      requires Valid()
      modifies this`errors, db`tables
      ensures r.Ok? <==> EmbeddedErrors(models.models, listing).Some?
      ensures r.Ok? ==> errors == old(errors) + EmbeddedErrors(models.models, listing).value && Valid()
    {
      ghost var parts := ChildParts(models.models, listing, Embedded);
      ghost var e0 := errors;
      ghost var acc: seq<ImportError> := [];
      for i := 0 to |Embedded|
        invariant Valid() && Collect(parts, i) == Some(acc) && errors == e0 + acc
      {
        ChildPartsAt(models.models, listing, Embedded, i);
        var saved := EmbedChild(listing, Embedded[i]);
        if saved.Err? {
          CollectStops(parts, i + 1, |parts|);
          return Err(saved.error);
        }
        CollectStep(parts, i, acc);
        AppendErrors(e0, acc, parts[i].value);
        acc := acc + parts[i].value;
      }
      return Ok(());
    }

    /** `_add_required_listings`, `_add_last_activity` and
        `_add_current_rejection`: nothing when the field is None, an error
        when its id is not filed, otherwise the imported listing's row
        points at the row found. */
    method AddBackRef(listing: Json, field: string, target: Kind) returns (r: Result<(), Exception>)
      requires Valid()
      modifies this`errors, db`tables
      ensures var plan := BackRefPlan(models.models, listing, field, target);
              && (r.Ok? <==> plan.Ok?)
              && (r.Ok? ==> Valid() && errors == old(errors) + (if plan.value.Unresolved? then [plan.value.error] else []))
              && (r.Ok? && !plan.value.Linked? ==> db.tables == old(db.tables))
              && (r.Ok? && plan.value.Linked? ==>
                    && FieldSet(old(db.Rows(ListingKind)), db.Rows(ListingKind), plan.value.listingPk, field,
                                RefTo(target, plan.value.targetPk))
                    && forall k :: k != ListingKind ==> db.Rows(k) == old(db.Rows(k)))
    {
      var plan :- BackRefPlan(models.models, listing, field, target);
      match plan {
      case NoRef =>
      case Unresolved(e) =>
        errors := errors + [e];
      case Linked(listingPk, targetPk) =>
        ghost var t0 := db.tables;
        var rows := db.Rows(ListingKind);
        FiledRowLive(models.models, db.tables, store, timestamp, ListingKind, listingPk);
        var row := rows[listingPk].value;
        var updated := row.(fields := row.fields[field := RefTo(target, targetPk)]);
        db.Update(ListingKind, listingPk, updated);
        UpdateKeepsStamped(rows, listingPk, updated, store, timestamp);
        forall k' | k' != ListingKind
          ensures RowsOf(db.tables, k') == RowsOf(t0, k')
        {
          assert db.Rows(k') == old(db.Rows(k'));
        }
        FiledAfterWrite(models.models, t0, db.tables, ListingKind, store, timestamp);
      }
      r := Ok(());
    }

    /** The three back-reference fix-ups of a listing, in order. */
    method AddBackRefs(listing: Json) returns (r: Result<(), Exception>)
      requires Valid()
      modifies this`errors, db`tables
      ensures r.Ok? <==> BackRefErrors(models.models, listing).Some?
      ensures r.Ok? ==> errors == old(errors) + BackRefErrors(models.models, listing).value && Valid()
    {
      ghost var parts := BackRefParts(models.models, listing, BackRefs);
      ghost var e0 := errors;
      ghost var acc: seq<ImportError> := [];
      for i := 0 to |BackRefs|
        invariant Valid() && Collect(parts, i) == Some(acc) && errors == e0 + acc
      {
        BackRefPartsAt(models.models, listing, BackRefs, i);
        var added := AddBackRef(listing, BackRefs[i].0, BackRefs[i].1);
        if added.Err? {
          CollectStops(parts, i + 1, |parts|);
          return added;
        }
        CollectStep(parts, i, acc);
        AppendErrors(e0, acc, parts[i].value);
        acc := acc + parts[i].value;
      }
      return Ok(());
    }

    /** The body of the second loop of `run` for one listing entry. */
    method FixUpListing(listing: Json) returns (r: Result<(), Exception>)
      requires Valid()
      modifies this`errors, db`tables
      ensures r.Ok? <==> ListingErrors(models.models, listing).Some?
      ensures r.Ok? ==> errors == old(errors) + ListingErrors(models.models, listing).value && Valid()
    {
      ghost var e0 := errors;
      var embedded := EmbedChildren(listing);
      if embedded.Err? {
        return embedded;
      }
      ghost var children := EmbeddedErrors(models.models, listing).value;
      ghost var e1 := errors;
      r := AddBackRefs(listing);
      if r.Ok? {
        ghost var refs := BackRefErrors(models.models, listing).value;
        assert ListingErrors(models.models, listing) == Some(children + refs);
        assert errors == e1 + refs && e1 == e0 + children;
        AppendErrors(e0, children, refs);
      }
    }

    /** Listing `i` of the second loop of `run`. */
    method FixUpStep(ghost e0: seq<ImportError>, listings: seq<Json>, i: nat,
                     ghost parts: seq<Option<seq<ImportError>>>, ghost acc: seq<ImportError>)
      returns (r: Result<(), Exception>, ghost next: seq<ImportError>)
      requires Valid() && i < |listings| && parts == ListingParts(models.models, listings)
      requires Collect(parts, i) == Some(acc) && errors == e0 + acc
      modifies this`errors, db`tables
      ensures r.Ok? ==> Valid() && Collect(parts, i + 1) == Some(next) && errors == e0 + next
      ensures r.Err? ==> Collect(parts, i + 1).None?
    {
      ListingPartsAt(models.models, listings, i);
      r := FixUpListing(listings[i]);
      next := acc;
      if r.Ok? {
        ghost var es := ListingErrors(models.models, listings[i]).value;
        CollectStep(parts, i, acc);
        AppendErrors(e0, acc, es);
        next := acc + es;
      }
    }

    /** The second loop of `run`: every entry under "listings", in order. */
    method FixUpListings() returns (r: Result<(), Exception>)
      requires Valid()
      modifies this`errors, db`tables
      ensures r.Ok? <==> Entries(importData, "listings").Ok?
                         && ListingsErrors(models.models, Entries(importData, "listings").value).Some?
      ensures r.Ok? ==>
                errors == old(errors) + ListingsErrors(models.models, Entries(importData, "listings").value).value
                && Valid()
    {
      var listings :- Entries(importData, "listings");
      ghost var parts := ListingParts(models.models, listings);
      ghost var e0 := errors;
      ghost var acc: seq<ImportError> := [];
      for i := 0 to |listings|
        invariant Valid() && Collect(parts, i) == Some(acc) && errors == e0 + acc
      {
        var fixed;
        fixed, acc := FixUpStep(e0, listings, i, parts, acc);
        if fixed.Err? {
          CollectStops(parts, i + 1, |parts|);
          return fixed;
        }
      }
      return Ok(());
    }

    /** `clean_old_import_data`: `clean_model_type` of every imported kind,
        in order. Every row of those kinds that this store imported before
        the timestamp is deleted, nothing else is, and everything this run
        filed survives. */
    method CleanOldImportData()
      requires Valid()
      modifies db`tables
      ensures Valid()
      ensures forall k :: db.Rows(k) == if k in SweptKinds then Sweep(old(db.Rows(k)), store, timestamp) else old(db.Rows(k))
    {
      ghost var t0 := db.tables;
      for i := 0 to |SweptKinds|
        invariant Valid()
        invariant forall k :: db.Rows(k) == if k in SweptKinds[..i] then Sweep(RowsOf(t0, k), store, timestamp) else RowsOf(t0, k)
      {
        SweepStep(t0, i);
      }
      assert SweptKinds[..|SweptKinds|] == SweptKinds;
    }

    /** One `clean_model_type` call of the sweep. */
    method SweepStep(ghost t0: map<Kind, Table>, i: nat)
      requires Valid() && i < |SweptKinds|
      requires forall k :: db.Rows(k) == if k in SweptKinds[..i] then Sweep(RowsOf(t0, k), store, timestamp) else RowsOf(t0, k)
      modifies db`tables
      ensures Valid()
      ensures forall k :: db.Rows(k) == if k in SweptKinds[..i + 1] then Sweep(RowsOf(t0, k), store, timestamp) else RowsOf(t0, k)
    {
      var k := SweptKinds[i];
      ghost var t1 := db.tables;
      ghost var rows := db.Rows(k);
      db.DeleteStale(k, store, timestamp);
      SweepKeepsStamped(rows, store, timestamp);
      SweepIdempotent(RowsOf(t0, k), store, timestamp);
      forall k' | k' != k
        ensures RowsOf(db.tables, k') == RowsOf(t1, k')
      {
        assert db.Rows(k') == old(db.Rows(k'));
      }
      FiledAfterWrite(models.models, t1, db.tables, k, store, timestamp);
      assert SweptKinds[..i + 1] == SweptKinds[..i] + [k];
    }

    /** `run`: the fifteen kinds in dependency order, the second loop over
        the listings, the sweep, then the lists of the thirteen result kinds
        and the errors. Every instance listed is a live row stamped by this
        run, and no swept kind keeps a row this store imported earlier. */
    method Run() returns (r: Result<RunResult, Exception>)
      requires Valid()
      modifies this`errors, models`models, db`tables
      ensures r.Ok? ==> Valid() && r.value.errors == errors && r.value.lists == ResultLists(models.models, |ResultKeys|)
      ensures r.Ok? ==> forall k :: k in SweptKinds ==> NoStale(db.Rows(k), store, timestamp)
      ensures r.Ok? ==> ListsStamped(r.value.lists, db.tables, store, timestamp)
    {
      for i := 0 to |ImportOrder|
        invariant Valid()
      {
        var imported :- ImportModelType(ImportOrder[i].0, ImportOrder[i].1);
      }
      var fixed :- FixUpListings();
      label AfterFix:
      CleanOldImportData();
      forall k | k in SweptKinds
        ensures NoStale(db.Rows(k), store, timestamp)
      {
        SweepLeavesNoStale(old@AfterFix(db.Rows(k)), store, timestamp);
      }
      var lists := ResultLists(models.models, |ResultKeys|);
      ResultStamped(models.models, db.tables, store, timestamp, lists);
      return Ok(RunResult(lists, errors));
    }
  }
}
