# OZP Center: cross-store import and export, seed data and access rules, in Dafny

OZP Center is the back end of an app store (the "apps mall") for listings of
web applications. Its stores share catalogues. One store exports its
exportable, non-private listings together with everything they refer to.
Another store imports that payload: it upserts each entity under the
exporting store's id, resolves references through a per-run registry, fixes
up a listing's back-references, and finally deletes the rows the exporting
store no longer sends. This project models that engine and proves its
invariants. It also models the smaller pieces around it:

- the scheduled import task that fetches a payload and records the outcome;
- the interval setter of stored import tasks;
- the seed-data parser and the generator that turns seed data into rows;
- the default security-marking plugin;
- role precedence, permission classes and excluded organisations;
- the review duplicate guard and the contact phone check;
- the notification `peer` property;
- the graph pipes;
- the `Maybe` and property-access helpers.

Persistence is a set of in-memory tables. Each kind of entity is a sequence
of rows indexed by primary key, and a deleted row is `None`. A row may carry
import metadata: the store it came from, its id in that store, and when it
was last imported. Stores are naturals and timestamps are integers. A
Python exception is the `Err` case of a `Result`, so every error path the
source has is part of a member's contract rather than a precondition.

Modules follow the source files:

| module | file |
|---|---|
| `Store`, `Kinds` | the tables and the kinds of entity (`ozpcenter/models/external_model.py`, `ozpcenter/models/import_metadata.py`) |
| `ModelDicts` | `ozpcenter/api/imports/model_dict.py` |
| `Serializers` | `ozpcenter/api/imports/serializers.py` |
| `ImportService` | `ozpcenter/api/imports/service.py` |
| `Export` (values and proofs), `ExportTasks` (the class) | `ozpcenter/api/export/views.py` |
| `Tasks` | `ozpcenter/tasks.py` |
| `ImportTaskModel` | `ozpcenter/models/import_task.py` |
| `ModelSchema` | `ozpcenter/scripts/model_schema.py` |
| `ModelGenerator` | `ozpcenter/scripts/model_generator.py` |
| `AccessControl` | `plugins/default_access_control/main.py` |
| `Profiles`, `Permissions`, `ExcludedOrgs`, `Reviews`, `Contacts`, `Notifications` | the model and permission files of the same names |
| `Pipes`, `Maybes`, `Expect` | `ozpcenter/pipe/pipes.py`, `ozpcenter/util/maybe.py`, `ozpcenter/util/expect.py` |
| `Wrappers`, `Exceptions`, `Json`, `Text`, `PyDict` | Python's `None`, exceptions, decoded JSON values, the `str` methods used, and insertion-ordered `dict` |

Code that changes state in place is a class with `modifies` clauses. Each
of its methods is proved against a function that specifies the new state.
The registry, the import task, the serializer upsert, the export walk, the
task-result table, the seed generator, the review table, the notification
and the pipes all follow this pattern. Pure code is datatypes, functions
and lemmas.

## Model

| member | source | states |
|---|---|---|
| Contacts.OrEmpty | ozpcenter/models/contact.py:73-78 | `x if x else ''`: the empty string exactly for None or '', otherwise the value itself |
| Contacts.Clean | ozpcenter/models/contact.py:67-69 | no error exactly when one of the two phones is non-blank; otherwise the `secure_phone` error 'Both phone numbers cannot be blank' |
| Contacts.Str | ozpcenter/models/contact.py:82-83 | the name, then ": ", then the email |
| Contacts.Repr | ozpcenter/models/contact.py:71-80 | "name, email", then "organization ", "secure_phone " and "unsecure_phone " each followed by its value, or nothing when the value is None or empty |
| Contacts.ReprMissingAsEmpty | ozpcenter/models/contact.py:73-78 | a missing optional field and an empty one print the same |
| ExcludedOrgs.UserExcludedOrgs | ozpcenter/models/util.py:4-23 | an apps-mall steward has no excluded agency; an org steward has every agency it does not steward excluded; anyone else has every agency it is not a member of excluded |
| ExcludedOrgs.ExcludedPartition | ozpcenter/models/util.py:10-23 | every agency is either excluded or one the role entitles the profile to, never both; an apps-mall steward has nothing excluded |
| ExcludedOrgs.OrgStewardUsesStewardedOnly | ozpcenter/models/util.py:14-18 | an org steward's memberships do not change what is excluded |
| Expect.PropOf | ozpcenter/util/expect.py:10-19 | the stored value exactly when the key or attribute is present; otherwise AssertionError "property '<name>' : no key in '<type>'" for a mapping and "... no attr in ..." for an object |
| Expect.MaybePropOf | ozpcenter/util/expect.py:22-31 | empty for a missing property or one stored as None, otherwise a Maybe holding the value |
| Expect.NullablePropOf | ozpcenter/util/expect.py:34-43 | never fails; None for a missing property, otherwise the stored value |
| Expect.NullableAgreesWithPropOf | ozpcenter/util/expect.py:10-43 | `nullable_prop_of` equals `prop_of` wherever `prop_of` succeeds, and is None exactly where `maybe_prop_of` is empty |
| Expect.FormatMessage | ozpcenter/util/expect.py:66-69 | "message : default" when a non-empty message is given, otherwise the default message alone |
| Maybes.Empty | ozpcenter/util/maybe.py:11-13 | an empty Maybe |
| Maybes.ValueOf | ozpcenter/util/maybe.py:15-19 | empty exactly when the value is None, otherwise holds the value |
| Maybes.Value | ozpcenter/util/maybe.py:29-33 | ValueError "Maybe is empty" on an empty Maybe, otherwise the stored value |
| Notifications.Sanitize | ozpcenter/models/notification.py:154-175 | keeps only `user` (reduced to its username), `folder_name`, `_bookmark_listing_ids` and `deleted_folder` (always True); AssertionError when `user` is not a dict |
| Notifications.SanitizeFixesSanitized | ozpcenter/models/notification.py:154-175 | sanitizing an already sanitized dict changes nothing |
| Notifications.Notification.Peer | ozpcenter/models/notification.py:130-135 | None for an empty column, otherwise the stored object |
| Notifications.Notification.SetPeer | ozpcenter/models/notification.py:137-177 | a falsy value leaves the column alone; a non-dict value or a non-dict `user` raises AssertionError and leaves it alone; a dict is stored sanitized |
| Notifications.Notification.ResetPeer | ozpcenter/models/notification.py:130-177 | `n.peer = n.peer` leaves the notification as it was |
| Permissions.HasAnyRole | ozpcenter/permissions.py:61-67 | true exactly when some group name of the user is one of the role names |
| Permissions.AppsMallStewardPermission | ozpcenter/permissions.py:28-31 | allowed exactly for a user holding APPS_MALL_STEWARD, with no authentication step |
| Permissions.HasAuthorization | ozpcenter/permissions.py:34-58 | each class's rule: a safe method or the listed roles for the read-only variants, the listed roles alone otherwise |
| Permissions.HasPermission | ozpcenter/permissions.py:13-21 | an unauthenticated user is denied; an authenticated one gets the class's `has_authorization` |
| Permissions.ReadOnlyAllowsSafeMethods | ozpcenter/permissions.py:34-53 | every authenticated GET, HEAD or OPTIONS request passes the read-only classes, whatever the roles |
| Permissions.BetaUserAloneRejected | ozpcenter/permissions.py:40-58 | a user whose only group is BETA_USER is rejected by `IsUser` and by the export permission |
| Reviews.ReviewTable.ValidateUnique | ozpcenter/models/review.py:81-98 | external reviews and replies always pass; an internal top-level review fails with 'Can not create duplicate review' exactly when another top-level review by the same author on the same listing exists |
| Reviews.ReviewTable.Save | ozpcenter/models/review.py:100-102 | fails exactly when an internal top-level review clashes with another top-level review by the same author on the same listing, and then changes nothing; otherwise inserts a new row at the next key or overwrites the row under the review's key; the no-duplicate invariant is kept |
| ImportTaskModel.UnitFactor | ozpcenter/models/import_task.py:65-75 | factor 1 for minutes, 60 for hours, 1440 for days, and 0 exactly for any other unit |
| ImportTaskModel.ImportTask.SetExecInterval | ozpcenter/models/import_task.py:65-75 | sets `_exec_interval` to value × 1, × 60 or × 1440; any other unit raises ValueError and leaves it unchanged; no other field is written |
| Profiles.HighestRole | ozpcenter/models/profile.py:130-149 | APPS_MALL_STEWARD over ORG_STEWARD over USER; '' with no user, no groups or only unranked groups |
| Profiles.IsAppsMallSteward | ozpcenter/models/profile.py:151-152 | true exactly when the highest role is APPS_MALL_STEWARD |
| Profiles.IsSteward | ozpcenter/models/profile.py:154-155 | true exactly when the highest role is one of the two steward roles |
| Profiles.IsUser | ozpcenter/models/profile.py:157-158 | true exactly when the highest role is USER |
| Profiles.IsBetaUser | ozpcenter/models/profile.py:160-161 | membership of BETA_USER, whatever the highest role |
| Profiles.Username | ozpcenter/models/profile.py:169-173 | None without a user, otherwise the user's name |
| Profiles.FirstMissingIsUnique | ozpcenter/models/profile.py:213-215 | an index before which every name is known and at which the name is unknown (or the list ends) is the index the group lookup stops at |
| Profiles.GroupsAdded | ozpcenter/models/profile.py:213-215 | after adding each name in turn the user holds exactly the names added |
| Profiles.Directory.ResolveAgencies | ozpcenter/models/profile.py:236-245 | resolves titles in order and stops at the first unknown one, reporting how many were resolved |
| Profiles.Directory.CreateUser | ozpcenter/models/profile.py:176-247 | a superuser exactly when a steward group is requested; groups default to ['USER']; the profile's defaults (display name and dn the username, bio the password, the clearance-U access control); an unknown group or agency raises DoesNotExist with earlier saves kept |
| Pipes.Cursor.Next | ozpcenter/pipe/pipes.py:30 | the next item in order, or None once they are used up |
| Pipes.LimitPipe.ProcessNextStart | ozpcenter/pipe/pipes.py:107-124 | emits the inputs in order and never more than `limit_number` of them |
| Pipes.CapitalizePipe.ProcessNextStart | ozpcenter/pipe/pipes.py:63-73 | the next input upper-cased |
| Pipes.LenPipe.ProcessNextStart | ozpcenter/pipe/pipes.py:76-86 | the length of the next input |
| Pipes.AcceptedStep | ozpcenter/pipe/pipes.py:95-104 | one more listing is kept exactly when the access check accepts it |
| Pipes.AcceptedMembers | ozpcenter/pipe/pipes.py:95-104 | the pipe keeps exactly the listings the access check accepts, and no more than it was given |
| Pipes.ListingPostSecurityMarkingCheckPipe.ProcessNextStart | ozpcenter/pipe/pipes.py:89-104 | each emitted listing passed the access check; the pipe stops only once its input is used up |
| Pipes.OutVertices | ozpcenter/pipe/pipes.py:26-28 | one out-vertex per edge, in order |
| Pipes.AdjacentSkipsIsolated | ozpcenter/pipe/pipes.py:25-32 | a vertex without edges adds nothing to the output |
| Pipes.VerticesVerticesPipe.ProcessNextStart | ozpcenter/pipe/pipes.py:12-32 | emits the out-vertices of each vertex's edges in order; once it stops, everything emitted is exactly that sequence |
| Pipes.VerticesVerticesPipe.Refill | ozpcenter/pipe/pipes.py:25-32 | moves to the edges of the next start until an edge is left, keeping what was emitted; when the starts run out, everything emitted is the out-vertices of all their edges |
| Pipes.GraphVertexPipe.ProcessNextStart | ozpcenter/pipe/pipes.py:127-140 | the next vertex unchanged |
| Pipes.ElementHasPipe.ProcessNextStart | ozpcenter/pipe/pipes.py:182-195 | the next vertex unchanged (the label, key and predicate are ignored) |
| Pipes.ElementIdPipe.ProcessNextStart | ozpcenter/pipe/pipes.py:143-156 | the id of the next vertex |
| Pipes.ElementPropertiesPipe.ProcessNextStart | ozpcenter/pipe/pipes.py:159-179 | the next vertex's properties, with `_id` and `_label` added when `internal`, written into the vertex's own properties dict |
| Store.FindExternal | ozpcenter/api/imports/serializers.py:74-76 | the live row imported from the store under the external id with the smallest primary key, or none when no such row exists |
| Store.FoundIsOnly | ozpcenter/api/imports/serializers.py:74-76 | when external ids are unique per store, the row found is the only match |
| Store.ReplaceKeepsUnique | ozpcenter/api/imports/serializers.py:61-72 | rewriting a row under the same store and external id keeps external ids unique |
| Store.AppendKeepsUnique | ozpcenter/api/imports/serializers.py:61-72 | appending a row under a store and external id that no row has yet keeps external ids unique |
| Store.Sweep | ozpcenter/api/imports/service.py:195-198 | the table with every row of the store older than the timestamp deleted |
| Store.SweepDeletesExactlyStale | ozpcenter/api/imports/service.py:195-198 | a row is deleted exactly when it was imported from the store before the timestamp; rows of other stores, internal rows and rows stamped at or after the timestamp are kept unchanged |
| Store.SweepIdempotent | ozpcenter/api/imports/service.py:195-198 | sweeping a second time deletes nothing more |
| Store.SweepKeepsUnique | ozpcenter/api/imports/service.py:195-198 | deleting rows keeps external ids unique |
| Store.Database.Insert | ozpcenter/api/imports/serializers.py:46 | a new instance is saved under the next primary key and the other tables are untouched |
| Store.Database.Update | ozpcenter/api/imports/serializers.py:85-87 | an instance that has a primary key is written back in place |
| Store.Database.DeleteStale | ozpcenter/api/imports/service.py:195-198 | the rows of one kind become the sweep of that kind; the other kinds are untouched |
| ModelDicts.Lookup | ozpcenter/api/imports/model_dict.py:15-20 | None for a class without an entry or an id not filed, otherwise the instance filed under that id |
| ModelDicts.ListIsContents | ozpcenter/api/imports/model_dict.py:22-27 | `list(cls)` holds exactly the instances `get(cls, ·)` can return, one per distinct external id |
| ModelDicts.ModelDict.Add | ozpcenter/api/imports/model_dict.py:29-36 | files the instance under its class and external id, replacing what was there; an instance without import metadata fails after its class got an empty entry |
| ModelDicts.AddFiles | ozpcenter/api/imports/model_dict.py:29-36 | after `add`, `get` finds the instance under its class and id, every other (class, id) pair finds what it found before, and every other class is untouched |
| ModelDicts.AddReplaces | ozpcenter/api/imports/model_dict.py:29-36 | adding under an id already filed replaces the instance and keeps the class's count |
| Serializers.FieldNamesPartition | ozpcenter/api/imports/serializers.py:99-105 | `to_one_field_names` and `to_many_field_names` together hold every declared field except "id", each as often as it is declared |
| Serializers.LookupJson | ozpcenter/api/imports/model_dict.py:15-20 | `models.get(cls, data)` on a JSON value: a bool hashes as 0 or 1, a string or None matches no integer id, and a list or object is unhashable once the class has an entry |
| Serializers.FormatD | ozpcenter/api/imports/serializers.py:148 | `"%d" % data`: integers and bools print as decimals, anything else raises TypeError |
| Serializers.GetReference | ozpcenter/api/imports/serializers.py:142-149 | the instance filed under the id, or the message "<Class> not found with id=<n>"; an exception for a value that cannot be hashed or formatted |
| Serializers.GetReferences | ozpcenter/api/imports/serializers.py:159-162 | every id is resolved exactly when each item is found, and then the i-th key is the row the i-th item resolves to; otherwise the result is the message or the exception of the first item not found, every item before it being found |
| Serializers.ValidateField | ozpcenter/api/imports/serializers.py:136-162 | an absent field is skipped when optional and rejected with "This field is required." when required; a null is accepted when allowed and rejected with "This field may not be null." otherwise; an integer field is read as `IntegerField` reads it; a reference to a missing id is rejected naming the class and the id; whatever is accepted suits the field and points only at filed rows |
| Serializers.ValidateFieldConverts | ozpcenter/api/imports/serializers.py:136-162 | a present value is converted by the field's type: a plain value is kept as given; a reference becomes the row `get_reference` finds (for an int id, the row filed under it), or its message, or its exception; a list of references is accepted exactly when every item is found, and then holds the found rows in the items' order; a string or object in place of the list is accepted (as no rows) only when empty, otherwise TypeError |
| Serializers.ToInteger | ozpcenter/api/imports/serializers.py:169 | `IntegerField` (`id` and the other integer fields): an integer is kept; a string over 1000 characters is 'String value too large.'; a shorter string is accepted exactly as the integer `int()` reads once a final point and its zeros are dropped; anything else is 'A valid integer is required.' |
| Serializers.IntegerTextAccepted | ozpcenter/api/imports/serializers.py:169 | the decimal text of any integer, bare or followed by a point and zeros, is accepted as that integer |
| Serializers.ValidateFields | ozpcenter/api/imports/serializers.py:165-481 | the declared fields validated left to right: the accepted values and the collected messages; the first exception aborts |
| Serializers.Validate | ozpcenter/api/imports/serializers.py:165-481 | `is_valid()` of one payload entry: a `null` entry is rejected as a whole with the framework's "No data provided", any other non-object with "Invalid data. Expected a dictionary, but got <type>.", otherwise the field-by-field validation |
| Serializers.AcceptedValuesSuit | ozpcenter/api/imports/serializers.py:136-162 | each accepted value suits the field declared under its name |
| Serializers.NoErrorsRequiredPresent | ozpcenter/api/imports/serializers.py:165-481 | with no message collected, every required field has a value |
| Serializers.RejectionsReported | ozpcenter/api/imports/serializers.py:136-162 | every rejected field has its message collected |
| Serializers.DeclaredSound | ozpcenter/api/imports/serializers.py:165-481 | no serializer redeclares "id", and every reference a serializer declares names a kind imported before its own kind |
| Serializers.GetReferenceFrame | ozpcenter/api/imports/serializers.py:145-149 | resolving a reference to another kind ignores what is filed under kind `k` |
| Serializers.GetReferencesFrame | ozpcenter/api/imports/serializers.py:159-162 | resolving a list of references to another kind ignores what is filed under kind `k` |
| Serializers.ValidateFieldFrame | ozpcenter/api/imports/serializers.py:136-162 | a field that does not refer to kind `k` validates alike whatever is filed under `k` |
| Serializers.ValidateFrame | ozpcenter/api/imports/service.py:134-142 | an entry validates alike whatever else of its own kind is filed, so the errors of a kind do not depend on the order of its entries |
| Serializers.FieldsSound | ozpcenter/api/imports/serializers.py:165-481 | no field of a kind refers to that kind |
| Serializers.ValidEntry | ozpcenter/api/imports/serializers.py:136-481 | a valid entry is an object; every accepted value names one of its keys and refers only to instances filed in this run, and its id is an integer |
| Serializers.RejectionInvalidates | ozpcenter/api/imports/serializers.py:136-162 | a rejected field makes the whole entry invalid with that field's message among the errors |
| Serializers.MissingOrUnresolvedInvalid | ozpcenter/api/imports/serializers.py:142-149 | an absent required field and a reference to an id not filed in this run each make the entry invalid with the framework's message |
| Serializers.Overwrite | ozpcenter/api/imports/serializers.py:42-44 | each named field takes its validated value and every other field keeps its value |
| Serializers.PkSet | ozpcenter/api/imports/serializers.py:48-51 | the primary keys a list of references names |
| Serializers.AddLinksBounds | ozpcenter/api/imports/serializers.py:48-51 | adding to-many relations removes no link, adds every named relation's rows and nothing else |
| Serializers.AddLinksStep | ozpcenter/api/imports/serializers.py:48-51 | adding one more relation adds its rows to what is there |
| Serializers.WritesOnlyUpsertKey | ozpcenter/api/imports/serializers.py:39-53 | a write confined to the row found for (store, id), or to a new last row, keeps every other row |
| Serializers.ImportSerializer.GetOrCreateModel | ozpcenter/api/imports/serializers.py:61-87 | the row this store imported under the id, with its `last_updated` set to the import timestamp and written back, or a new unsaved instance with fresh metadata |
| Serializers.ImportSerializer.AssignToOne | ozpcenter/api/imports/serializers.py:42-44 | every to-one field takes its validated value; a field the entry left out raises KeyError |
| Serializers.ImportSerializer.AddRelations | ozpcenter/api/imports/serializers.py:48-51 | each to-many relation gets its validated rows added in declaration order, until a relation has no list to add |
| Serializers.ImportSerializer.AddToMany | ozpcenter/api/imports/serializers.py:48-51 | the relations added before one that fails stay added |
| Serializers.ImportSerializer.Save | ozpcenter/api/imports/serializers.py:39-53 | reuses the row this store imported under the same id (and no other) or appends a new one, sets every to-one field, adds every to-many relation and stamps the row with the import timestamp; every other row is kept |
| Serializers.ImportSerializer.SaveFields | ozpcenter/api/imports/serializers.py:42-53 | the rest of `save` once the instance is found or created |
| Serializers.ImportSerializer.Persist | ozpcenter/api/imports/serializers.py:46-51 | `instance.save()` followed by the to-many additions |
| Serializers.ImportSerializer.WriteInstance | ozpcenter/api/imports/serializers.py:46 | a new instance gets the next primary key; a found one is written back in place |
| ImportService.ImportOrderRanks | ozpcenter/api/imports/service.py:25-55 | each kind is imported at its rank, so every reference names a kind imported earlier in the run |
| ImportService.SweptAreImported | ozpcenter/api/imports/service.py:200-229 | the sweep visits the imported kinds in the order they are imported |
| ImportService.DependenciesFirst | ozpcenter/api/imports/service.py:25-62 | a reference declared by a top-level kind names a kind imported before it; one declared by an embedded child names a top-level kind |
| ImportService.GetImportData | ozpcenter/api/imports/service.py:129-132 | the payload's value under the key, or [] when the key is absent; a payload that is not an object raises |
| Json.Iterate | ozpcenter/api/imports/service.py:135 | `for x in j`: a list yields its items, a string its one-character strings, an object one entry per key; anything else raises TypeError "'<type>' object is not iterable" |
| ImportService.MissingKeyIsEmpty | ozpcenter/api/imports/service.py:129-132 | a top-level key the payload leaves out has no entries |
| ImportService.Subscript | ozpcenter/api/imports/service.py:58-66 | `j[key]`: the value on an object holding the key, KeyError on one without it, TypeError otherwise |
| ImportService.SetItem | ozpcenter/api/imports/service.py:148 | `d[parent_ref] = parent_pk` on an object; TypeError on anything else |
| ImportService.EntryOutcome | ozpcenter/api/imports/service.py:135-142 | one entry is registered with its validated values and integer id, rejected with its errors, or aborts the run; a top-level `null` entry is rejected with "No data provided" and any other non-object with the dictionary-type message, while an embedded non-object aborts at the "listing" assignment |
| ImportService.EachEntryCounted | ozpcenter/api/imports/service.py:134-142 | every entry either files one instance or records one error |
| ImportService.CrashStops | ozpcenter/api/imports/service.py:134-142 | once an entry raises, the whole pass raises |
| ImportService.RunEntriesStep | ozpcenter/api/imports/service.py:134-142 | one more entry extends the pass by its outcome |
| ImportService.BackRefPlan | ozpcenter/api/imports/service.py:87-127 | nothing when the field is None; the error "<field> with id=<n> not found" when the id is not filed; otherwise a link from the listing's row to the row found |
| ImportService.CollectStops | ozpcenter/api/imports/service.py:57-66 | once one step raises, the steps after it are not run |
| ImportService.CollectAll | ozpcenter/api/imports/service.py:57-66 | a sequence of steps raises exactly when one of its steps does; otherwise it records every step's errors |
| ImportService.BackRefErrorShape | ozpcenter/api/imports/service.py:87-127 | each back-reference fix-up records at most one error, of type "Listing" |
| ImportService.UpsertKeepsStamped | ozpcenter/api/imports/serializers.py:39-53 | the upsert keeps every stamped row stamped and leaves the saved row stamped |
| ImportService.SweepKeepsStamped | ozpcenter/api/imports/service.py:195-198 | the sweep deletes no row stamped with the import timestamp |
| ImportService.ListedFiled | ozpcenter/api/imports/model_dict.py:22-27 | every instance `models.list` returns is of its kind, carries this store and the import timestamp, and is a live row |
| ImportService.ResultStamped | ozpcenter/api/imports/service.py:70-85 | the lists `run` returns hold only rows this run filed and stamped |
| ImportService.SweepLeavesNoStale | ozpcenter/api/imports/service.py:195-198 | after the sweep no row of the store is older than the timestamp |
| ImportService.OutcomeFrame | ozpcenter/api/imports/service.py:134-142 | an entry's outcome ignores what is filed under its own kind |
| ImportService.ResultLists | ozpcenter/api/imports/service.py:70-85 | the thirteen result lists in the order of the result's keys |
| ImportService.ImportTask.constructor | ozpcenter/api/imports/service.py:16-23 | the timestamp is the one given or the current time; the registry and the errors start empty |
| ImportService.ImportTask.SaveEntry | ozpcenter/api/imports/service.py:141 | the saved row is live and stamped, and every instance already filed stays filed |
| ImportService.ImportTask.ImportEntry | ozpcenter/api/imports/service.py:135-142 | validate one entry against the registry; record its errors, or save it and file the instance |
| ImportService.ImportTask.FileEntry | ozpcenter/api/imports/service.py:141-142 | `serializer.save()` then `models.add(instance)` |
| ImportService.ImportTask.ImportStep | ozpcenter/api/imports/service.py:135-142 | entry `i` of the loop extends the pass by that entry's outcome |
| ImportService.ImportTask.ImportModelType | ozpcenter/api/imports/service.py:134-142 | every entry under the key in turn: the registry grows by the entries filed, the errors by the entries rejected, and no other kind is touched |
| ImportService.ImportTask.EmbedEntry | ozpcenter/api/imports/service.py:147-155 | the child gets the parent's id under "listing", is validated, then saved or has its errors recorded; it is not filed in the registry |
| ImportService.ImportTask.EmbedStep | ozpcenter/api/imports/service.py:147-155 | child `i` of the loop |
| ImportService.ImportTask.SerializeEmbedded | ozpcenter/api/imports/service.py:144-156 | the children saved, in order; every child is either saved or has its errors recorded |
| ImportService.ImportTask.EmbedChild | ozpcenter/api/imports/service.py:58-62 | one embedded kind of a listing, with `listing[key]` and `listing["id"]` evaluated first |
| ImportService.ImportTask.EmbedChildren | ozpcenter/api/imports/service.py:58-62 | the four embedded kinds of a listing, in order |
| ImportService.ImportTask.AddBackRef | ozpcenter/api/imports/service.py:87-127 | nothing when the field is None, an error when its id is not filed, otherwise the imported listing's row points at the row found |
| ImportService.ImportTask.AddBackRefs | ozpcenter/api/imports/service.py:64-66 | the three back-reference fix-ups of a listing, in order |
| ImportService.ImportTask.FixUpListing | ozpcenter/api/imports/service.py:57-66 | the body of the second loop for one listing entry |
| ImportService.ImportTask.FixUpListings | ozpcenter/api/imports/service.py:57-66 | every entry under "listings", in order |
| ImportService.ImportTask.CleanOldImportData | ozpcenter/api/imports/service.py:200-229 | every row of the swept kinds that this store imported before the timestamp is deleted, nothing else is, and everything this run filed survives |
| ImportService.ImportTask.SweepStep | ozpcenter/api/imports/service.py:195-198 | one `clean_model_type` call of the sweep |
| ImportService.ImportTask.Run | ozpcenter/api/imports/service.py:25-85 | on success every instance listed is a live row stamped by this run, the errors are the run's errors, and no swept kind keeps a row this store imported earlier |
| ModelSchema.Index | ozpcenter/scripts/model_schema.py:273 | `data[key]` on an object gives the stored value, a missing key raises KeyError naming it, and a non-object raises TypeError |
| ModelSchema.ParseList | ozpcenter/scripts/model_schema.py:184-195 | a list comprehension over what `for x in` yields: a value that cannot be iterated raises its TypeError; a success has one value per element, each the parse of that element; every element parsing makes the whole list parse; a failure is the error of the first element that fails |
| ModelSchema.ParseEach | ozpcenter/scripts/model_schema.py:184-195 | the comprehension over a sequence of elements: one value per element in order, or the error of the first element whose parse fails |
| ModelSchema.StringElementsRejected | ozpcenter/scripts/model_schema.py:184-195 | every entity parser rejects a string element, and rejects every string alike, so the text of the keys an object yields under iteration never matters |
| ModelSchema.ParseImage | ozpcenter/scripts/model_schema.py:272-275 | requires only `filename`: the security marking defaults to UNCLASSIFIED and the image type to the caller's default, and a present `image_type_name` is kept |
| ModelSchema.ParseImageAt | ozpcenter/scripts/model_schema.py:272-275 | a nested image is the parse of the value under its key with its context's default image type |
| ModelSchema.ParseAgency | ozpcenter/scripts/model_schema.py:217-220 | parses exactly when `title`, `short_name` and an `icon` that parses are present on an object; the title and short name are the given values, the icon is parsed with the agency icon type as default |
| ModelSchema.ParseContact | ozpcenter/scripts/model_schema.py:228-234 | parses exactly when `contact_type_name`, `name` and `email` are present on an object; those are the given values; a missing organization or phone becomes None and a present one is kept |
| ModelSchema.ParseCustomField | ozpcenter/scripts/model_schema.py:242-252 | parses exactly when the nine required keys are present on an object, each field being the given value; a missing `properties` becomes None and a present one is kept |
| ModelSchema.ParseCustomFieldType | ozpcenter/scripts/model_schema.py:255-259 | parses exactly when `name`, `display_name` and `media_type` are present on an object, each being the given value; a missing `options` becomes None and a present one is kept |
| ModelSchema.ParseImageType | ozpcenter/scripts/model_schema.py:278-284 | parses exactly when `name` is present on an object; the name and every present size are the given values; missing sizes default to 16 for the minimums, 2048 for the maximums and 2097152 bytes |
| ModelSchema.ParseIntent | ozpcenter/scripts/model_schema.py:287-291 | parses exactly when `action`, `media_type`, `label` and an `icon` that parses are present on an object; the first three are the given values and the icon is parsed with the intent icon type as default |
| ModelSchema.ParseProfile | ozpcenter/scripts/model_schema.py:345-357 | a falsy organizations or stewarded organizations value becomes the empty list and a truthy one is kept; username, display name, bio, email, dn and groups are the given values and the access control is parsed from `access_control` |
| ModelSchema.ParseScreenshot | ozpcenter/scripts/model_schema.py:360-364 | the order and description are the given values; the large and small images are parsed with the large and small screenshot image types as defaults |
| ModelSchema.ReadKeys | ozpcenter/scripts/model_schema.py:294-333 | reads exactly the listed keys, and succeeds whenever they are all present |
| ModelSchema.ParseListing | ozpcenter/scripts/model_schema.py:294-333 | the seventeen scalar fields are read with their given values; the category, contact, owner and tag lists are the given values; a present `intent_actions` is kept and a missing one becomes None; the icons are parsed with their own image types as defaults; activities, custom field values, doc URLs and screenshots are parsed element by element in order |
| ModelSchema.ParseModel | ozpcenter/scripts/model_schema.py:183-208 | a model parses exactly when each of the twelve top-level comprehensions succeeds; a missing or unindexable `agencies` fails with that lookup's error; each list of a parsed model is the comprehension over its own key |
| ModelSchema.ParseAt | ozpcenter/scripts/model_schema.py:184-195 | `[parse(x) for x in data[key]]`: the lookup's KeyError or TypeError first, then the comprehension over the value found |
| ModelGenerator.FileExtensionAfterLastDot | ozpcenter/scripts/model_generator.py:204 | the saved image's extension is the text after the last '.' of the file name (the whole name when it has no dot) |
| ModelGenerator.ActivityOperation | ozpcenter/scripts/model_generator.py:298-309 | a workflow operation exactly for CREATED, SUBMITTED, APPROVED_ORG and APPROVED; any other action triggers nothing |
| ModelGenerator.ActivityCalls | ozpcenter/scripts/model_generator.py:298-309 | succeeds exactly when every activity's author is a generated profile, making at most one workflow call per activity |
| ModelGenerator.IgnoredActionsCallNothing | ozpcenter/scripts/model_generator.py:300-309 | activities whose actions are none of the four workflow actions make no workflow call |
| ModelGenerator.ActivityCallsFailAt | ozpcenter/scripts/model_generator.py:298-300 | the first activity whose author is unknown decides the error: "Profile with username '<u>' not found" |
| ModelGenerator.LinksTo | ozpcenter/scripts/model_generator.py:264-290 | every registered key named gets a link from the listing under the relation, and each link is to the row of some registered key named |
| ModelGenerator.LinksToGrows | ozpcenter/scripts/model_generator.py:264-290 | linking one more registered key adds exactly its link |
| ModelGenerator.MembersIterated | ozpcenter/scripts/model_generator.py:264-290 | the keys a loop visits are exactly what iterating the value yields: nothing for a value that cannot be iterated, the elements or characters otherwise, the keys of an object |
| ModelGenerator.RegisteredAll | ozpcenter/scripts/model_generator.py:264-290 | checking the keys one by one finds them all registered exactly when the set of keys is contained in the registry |
| ModelGenerator.AllInMembers | ozpcenter/scripts/model_generator.py:264-290 | the loop's success condition: the value can be iterated and every key it yields is registered |
| ModelGenerator.ScreenshotRows | ozpcenter/scripts/model_generator.py:329-339 | each screenshot saves exactly three rows: its small image, its large image, then itself |
| ModelGenerator.IconRows | ozpcenter/scripts/model_generator.py:234-237 | a listing saves exactly four icon images before itself |
| ModelGenerator.AsText | ozpcenter/scripts/model_generator.py:313-327 | a JSON string yields its text; anything else is an error |
| ModelGenerator.UserArgs | ozpcenter/scripts/model_generator.py:313-324 | the `create_user` arguments of a seed profile: no password or issuer DN; the access-control dump; the normalized email; the display name and dn as text; the groups, organizations and stewarded organizations as lists of text; failure exactly when the email cannot be normalized, a name is not a string or one of the three lists is not a list of strings |
| ModelGenerator.SeedEmail | ozpcenter/scripts/model_generator.py:313-318 | `normalize_email`: a false value becomes the empty address, a string is kept, anything else raises AttributeError for the missing `strip` |
| ModelGenerator.Generator.constructor | ozpcenter/scripts/model_generator.py:26-39 | every lookup dictionary starts empty and nothing has been saved, linked or run |
| ModelGenerator.Generator.CreateModel | ozpcenter/scripts/model_generator.py:41-100 | on success the entities were created kind by kind in the order image types, categories, contact types, listing types, tags, custom field types, custom fields, contacts, agencies, intents, profiles, listings, one per seed entry |
| ModelGenerator.Generator.CreateImageTypes | ozpcenter/scripts/model_generator.py:43-45 | the rows saved are exactly one image type row per entry, in order, after the rows already there; the registry is the old one with each entry's name filed in order, so every name is registered and maps to the row of its last entry |
| ModelGenerator.Generator.CreateCategories | ozpcenter/scripts/model_generator.py:48-50 | the rows saved are exactly one category row per entry, in order, after the rows already there; the registry is the old one with each entry's title filed in order, so every title is registered and maps to the row of its last entry |
| ModelGenerator.Generator.CreateContactTypes | ozpcenter/scripts/model_generator.py:53-55 | the rows saved are exactly one contact type row per entry, in order, after the rows already there; the registry is the old one with each entry's name filed in order, so every name is registered and maps to the row of its last entry |
| ModelGenerator.Generator.CreateListingTypes | ozpcenter/scripts/model_generator.py:58-60 | the rows saved are exactly one listing type row per entry, in order, after the rows already there; the registry is the old one with each entry's title filed in order, so every title is registered and maps to the row of its last entry |
| ModelGenerator.Generator.CreateTags | ozpcenter/scripts/model_generator.py:63-65 | the rows saved are exactly one tag row per entry, in order, after the rows already there; the registry is the old one with each entry's name filed in order, so every name is registered and maps to the row of its last entry |
| ModelGenerator.Generator.CreateCustomFieldTypes | ozpcenter/scripts/model_generator.py:68-70 | the rows saved are exactly one custom field type row per entry, in order, after the rows already there; the registry is the old one with each entry's name filed in order, so every name is registered and maps to the row of its last entry |
| ModelGenerator.Generator.CreateCustomFields | ozpcenter/scripts/model_generator.py:73-75 | succeeds exactly when every entry's type is registered; then one custom field row per entry, in order, each pointing at its type, and every label filed in order (the last entry with a label wins); otherwise the first entry with an unregistered type fails with "CustomFieldType with name '<n>' not found" and exactly the entries before it are saved and filed |
| ModelGenerator.Generator.CreateContacts | ozpcenter/scripts/model_generator.py:78-80 | succeeds exactly when every entry's contact type is registered; then one contact row per entry, in order, each pointing at its type, and every email filed in order (the last entry with an email wins); otherwise the first entry with an unregistered type fails with "ContactType with name '<n>' not found" and exactly the entries before it are saved and filed |
| ModelGenerator.Generator.CreateAgencies | ozpcenter/scripts/model_generator.py:83-85 | succeeds exactly when every icon resolves; then per entry, in order, its icon image row and then the agency row pointing at it, each title filed (here and in the profile directory) at its agency row, the last entry with a title winning; otherwise the first entry whose icon does not resolve fails and exactly the entries before it are saved and filed |
| ModelGenerator.Generator.CreateIntents | ozpcenter/scripts/model_generator.py:88-90 | succeeds exactly when every icon resolves; then per entry, in order, its icon image row and then the intent row pointing at it, each action filed at its intent row, the last entry with an action winning; otherwise the first entry whose icon does not resolve fails and exactly the entries before it are saved and filed |
| ModelGenerator.Generator.CreateProfiles | ozpcenter/scripts/model_generator.py:93-95 | succeeds exactly when `create_user` accepts every entry (username and arguments well typed, every group, organization and stewarded organization known); then one user and one profile per entry are appended in order, each profile with its entry's access-control dump and display name, and every username filed at its profile (the last entry wins); otherwise the first entry not accepted fails: the entries before it are saved and filed, and one more user was created exactly when its username and arguments were well typed |
| ModelGenerator.FiledLast | ozpcenter/scripts/model_generator.py:43-95 | filing keys in order: the registered keys are the old ones and the filed ones; a key not filed keeps its old row; a filed key maps to the row of its last occurrence |
| ModelGenerator.IconRowsOf | ozpcenter/scripts/model_generator.py:83-90 | two rows per entry, in order: its icon image, then itself |
| ModelGenerator.Generator.CreateListings | ozpcenter/scripts/model_generator.py:98-100 | on success one listing per entry, in order |
| ModelGenerator.Generator.CreateImageType | ozpcenter/scripts/model_generator.py:186-195 | appends one image type row and registers it by name; as written, the row's minimum and maximum heights are the seed's minimum and maximum widths |
| ModelGenerator.Generator.CreateCategory | ozpcenter/scripts/model_generator.py:112-117 | appends the category row and registers it by title |
| ModelGenerator.Generator.CreateContactType | ozpcenter/scripts/model_generator.py:119-124 | appends the contact type row and registers it by name |
| ModelGenerator.Generator.CreateListingType | ozpcenter/scripts/model_generator.py:220-225 | appends the listing type row and registers it by title |
| ModelGenerator.Generator.CreateTag | ozpcenter/scripts/model_generator.py:341-345 | appends the tag row and registers it by name |
| ModelGenerator.Generator.CreateCustomFieldType | ozpcenter/scripts/model_generator.py:158-165 | appends the custom field type row and registers it by name |
| ModelGenerator.Generator.CreateCustomField | ozpcenter/scripts/model_generator.py:140-156 | fails with "CustomFieldType with name '<n>' not found", saving nothing, exactly when the type is not registered; otherwise saves the field pointing at that type and registers it by label |
| ModelGenerator.Generator.CreateContact | ozpcenter/scripts/model_generator.py:126-138 | fails with "ContactType with name '<n>' not found", saving nothing, exactly when the type is not registered; otherwise saves the contact pointing at that type and registers it by email |
| ModelGenerator.Generator.CreateImage | ozpcenter/scripts/model_generator.py:197-207 | succeeds exactly when the image type is registered and the filename is a string; an unregistered type fails its assertion; a failure saves nothing; a success saves one image row at the next id |
| ModelGenerator.Generator.CreateAgency | ozpcenter/scripts/model_generator.py:102-110 | succeeds exactly when the icon's image type is registered; then saves the icon and the agency pointing at it and registers the agency by title; a failure changes nothing |
| ModelGenerator.Generator.CreateIntent | ozpcenter/scripts/model_generator.py:209-218 | succeeds exactly when the icon's image type is registered; then saves the icon and the intent pointing at it and registers the intent by action; a failure changes nothing |
| ModelGenerator.Generator.CreateProfile | ozpcenter/scripts/model_generator.py:313-327 | succeeds exactly when `create_user` accepts the seed (username and arguments well typed, every group, organization and stewarded organization known); the users and profiles only grow, by one user whenever the username and arguments are well typed and by at most one profile; a success appends exactly one profile, whose access control is the JSON dump of the seed's clearances, formal accesses and visas and whose display name is the seed's, and files it under the username; a non-string username or bad arguments change nothing |
| ModelGenerator.Generator.LinkAll | ozpcenter/scripts/model_generator.py:264-290 | succeeds exactly when the value can be iterated and every key it yields is registered; a value that cannot be iterated raises its TypeError and links nothing; a list or string links the keys before the first unknown one and fails naming it; an object fails naming some unknown key; success links every key yielded |
| ModelGenerator.Generator.LinkRelation | ozpcenter/scripts/model_generator.py:264-290 | one relation's loop as `create_listing` uses it: success exactly when every key is registered, and then every key is linked |
| ModelGenerator.Generator.LinkInOrder | ozpcenter/scripts/model_generator.py:264-290 | the loop over a list or string in order: success exactly when all keys are registered; the keys before the first unknown one are linked and the error names that key |
| ModelGenerator.Generator.LinkKeys | ozpcenter/scripts/model_generator.py:264-290 | the loop over an object's keys: success exactly when all are registered, then all are linked; a failure names an unregistered key and links only registered ones |
| ModelGenerator.Generator.CreateCustomFieldValues | ozpcenter/scripts/model_generator.py:167-177 | succeeds exactly when every label names a registered custom field; then appends one value row per entry, in order; a failure keeps the rows already saved |
| ModelGenerator.Generator.CreateScreenshot | ozpcenter/scripts/model_generator.py:329-339 | succeeds exactly when both images resolve; then appends the small image, the large image and the screenshot pointing at them |
| ModelGenerator.Generator.CreateScreenshots | ozpcenter/scripts/model_generator.py:292-293 | succeeds exactly when every screenshot's images resolve; then appends their rows in order, three per screenshot |
| ModelGenerator.Generator.CreateDocUrls | ozpcenter/scripts/model_generator.py:179-184 | appends one document link row per entry, in order, each pointing at the listing |
| ModelGenerator.Generator.RunActivities | ozpcenter/scripts/model_generator.py:298-309 | the workflow calls made are exactly those of the activities up to the first unknown author, whose error is returned |
| ModelGenerator.Generator.CreateListing | ozpcenter/scripts/model_generator.py:227-311 | succeeds exactly when the agency, the listing type, every icon, category, contact, custom field, intent, owner, tag, screenshot image and activity author resolve; an unknown agency or listing type fails first with its "not found" error and saves no row; a success saves the four icons, the listing, then its related rows, links and workflow calls |
| ModelGenerator.Generator.SaveListing | ozpcenter/scripts/model_generator.py:234-309 | the listing's rows, links and workflow calls when everything resolves, and success exactly then |
| ModelGenerator.Generator.AttachAll | ozpcenter/scripts/model_generator.py:264-309 | what follows the listing row: its related rows, links and workflow calls, succeeding exactly when they all resolve |
| ModelGenerator.Generator.SaveListingRow | ozpcenter/scripts/model_generator.py:234-262 | succeeds exactly when the four icons resolve; then the listing row comes right after its four icons |
| ModelGenerator.Generator.SaveIcons | ozpcenter/scripts/model_generator.py:234-237 | succeeds exactly when the four icons resolve; then saves the small, large, banner and large banner icons in that order |
| ModelGenerator.Generator.AttachRelated | ozpcenter/scripts/model_generator.py:264-290 | succeeds exactly when every category, contact, custom field, intent, owner and tag resolves; then adds all of their links |
| ModelGenerator.Generator.LinkFirst | ozpcenter/scripts/model_generator.py:264-272 | succeeds exactly when every category and contact is registered; then links them all |
| ModelGenerator.Generator.LinkOthers | ozpcenter/scripts/model_generator.py:277-290 | succeeds exactly when every intent, owner and tag is registered; then links them all |
| ModelGenerator.Generator.AttachDetails | ozpcenter/scripts/model_generator.py:292-309 | succeeds exactly when every screenshot image and activity author resolves; then saves the screenshots and document links and makes the workflow calls |
| AccessControl.ConvertDictToToken | plugins/default_access_control/main.py:70-89 | a missing or None `type` or `data`, or a type other than Classification and DisseminationControl, gives InvalidFormat; otherwise the token of that type built from `data` |
| AccessControl.ClassificationEntryConverts | plugins/default_access_control/main.py:82-89 | a classification entry with its names and level converts to that classification |
| AccessControl.ControlEntryConverts | plugins/default_access_control/main.py:84-89 | a dissemination-control entry with its names converts to that control |
| AccessControl.TokensListConverts | plugins/default_access_control/main.py:26-68 | every entry of the built-in token list converts, in order, to the built-in tokens |
| AccessControl.LookupKeys | plugins/default_access_control/main.py:95-101 | a lookup holds exactly the upper-cased names of the tokens |
| AccessControl.LookupFindsLast | plugins/default_access_control/main.py:95-101 | under each name the lookup holds the last token with that name |
| AccessControl.SplitTokensSpec | plugins/default_access_control/main.py:103-118 | one token per "//"-separated segment, in order: the long-name match first, then the short-name match, otherwise an unknown token carrying the segment |
| AccessControl.DefaultClassification | plugins/default_access_control/main.py:103-118 | with the built-in tokens a segment is a classification exactly when its upper-cased text is UNCLASSIFIED, CONFIDENTIAL, SECRET, TOP SECRET, U, C, S or TS |
| AccessControl.DefaultLookups | plugins/default_access_control/main.py:95-101 | the long-name and short-name lookups built from the built-in tokens, name by name |
| AccessControl.CaseInsensitive | plugins/default_access_control/main.py:109-115 | two segments equal up to case become the same token, unless neither names one |
| AccessControl.PluginMain.constructor | plugins/default_access_control/main.py:61-68 | the plugin's tokens are the built-in tokens |
| AccessControl.PluginMain.BuildLookup | plugins/default_access_control/main.py:95-101 | the loop builds exactly the lookup of the tokens under their long or short names |
| AccessControl.PluginMain.SplitTokens | plugins/default_access_control/main.py:91-118 | the tokens returned are those of the segment-by-segment specification |
| AccessControl.PluginMain.ValidateMarking | plugins/default_access_control/main.py:123-138 | false for None or the empty marking; otherwise true exactly when the first token is a classification, which with the built-in tokens means the first segment names one of the four levels in any case |
| AccessControl.HasAccess | plugins/default_access_control/main.py:120-121 | every access is granted |
| Export.NothingClosed | ozpcenter/api/export/views.py:50-66 | the empty dictionaries of a fresh export are well formed and closed |
| Export.AddImageType | ozpcenter/api/export/views.py:172-174 | the image type is collected under its id; an id already collected leaves everything as it was; only the image types change |
| Export.AddImage | ozpcenter/api/export/views.py:166-170 | a None image or one already collected changes nothing; otherwise the image is collected under its id along with its type; every image's type stays collected |
| Export.AddAgency | ozpcenter/api/export/views.py:128-131 | the agency is collected under its id; a new one brings its icon (and the icon's type); an agency already collected changes nothing; only agencies, images and image types change |
| Export.AddIntent | ozpcenter/api/export/views.py:133-136 | the intent is collected under its id; a new one brings its icon; an intent already collected changes nothing |
| Export.AddAgencies | ozpcenter/api/export/views.py:142-146 | every agency of the list is collected, entries already collected keep their values and order, and collected agencies keep their icons collected |
| Export.AddProfile | ozpcenter/api/export/views.py:138-146 | the profile is collected under its id; a new one brings every organization and stewarded organization; a profile already collected changes nothing; every collected profile keeps its organizations collected |
| Export.ProfileAddedClosed | ozpcenter/api/export/views.py:138-146 | a profile whose organizations are collected can join a dictionary of profiles whose organizations are all collected |
| Export.AddCategory | ozpcenter/api/export/views.py:148-150 | the category is collected under its id; a category already collected changes nothing |
| Export.AddChangeDetail | ozpcenter/api/export/views.py:124-126 | the change detail is collected under its id; one already collected changes nothing |
| Export.AddChangeDetails | ozpcenter/api/export/views.py:121-122 | every change detail of the list is collected and nothing collected is altered |
| Export.AddListingActivity | ozpcenter/api/export/views.py:117-122 | the activity is collected under its id; a new one brings all its change details; an activity already collected changes nothing |
| Export.AddCustomFieldType | ozpcenter/api/export/views.py:113-115 | the custom field type is collected under its id; one already collected changes nothing |
| Export.AddCustomField | ozpcenter/api/export/views.py:107-111 | the custom field is collected under its id; a new one brings its type; one already collected changes nothing |
| Export.AddContactType | ozpcenter/api/export/views.py:182-184 | the contact type is collected under its id; one already collected changes nothing |
| Export.AddContact | ozpcenter/api/export/views.py:176-180 | the contact is collected under its id; a new one brings its contact type; one already collected changes nothing |
| Export.AddListingType | ozpcenter/api/export/views.py:152-154 | fails with AttributeError "'NoneType' object has no attribute 'id'" exactly for a missing listing type; otherwise the type is collected under its id and nothing else changes |
| Export.AddTag | ozpcenter/api/export/views.py:156-158 | the tag is collected under its id; one already collected changes nothing |
| Export.AddActivities | ozpcenter/api/export/views.py:75-76 | every activity of the listing is collected, with its change details |
| Export.AddCategories | ozpcenter/api/export/views.py:78-79 | every category of the listing is collected |
| Export.AddCustomFieldValues | ozpcenter/api/export/views.py:81-82 | the custom field of every value of the listing is collected, with its type |
| Export.AddContacts | ozpcenter/api/export/views.py:84-85 | every contact of the listing is collected, with its type |
| Export.AddIntents | ozpcenter/api/export/views.py:87-88 | every intent of the listing is collected, with its icon |
| Export.AddOwners | ozpcenter/api/export/views.py:90-91 | every owner of the listing is collected, with its organizations |
| Export.AddTags | ozpcenter/api/export/views.py:93-94 | every tag of the listing is collected |
| Export.AddScreenshots | ozpcenter/api/export/views.py:96-98 | the small and the large image of every screenshot are collected, with their types |
| Export.AddReviewAuthors | ozpcenter/api/export/views.py:100-101 | the author of every review of the listing is collected, with its organizations |
| Export.AddIcons | ozpcenter/api/export/views.py:160-164 | every icon the listing has (small, large, banner, large banner) is collected, with its type |
| Export.RelatedCollects | ozpcenter/api/export/views.py:74-104 | the stages of `_add_listing_related` before the listing type only add entries, keep every reference between collected entities collected, and collect everything the listing refers to |
| Export.AddListingRelated | ozpcenter/api/export/views.py:74-105 | fails with the listing type's AttributeError exactly when the listing has no type; on success the dictionaries stay well formed |
| Export.ListingRelatedCollects | ozpcenter/api/export/views.py:74-105 | after `_add_listing_related` of a typed listing, every dictionary has only grown, references stay collected, and the listing's activities, categories, custom fields, contacts, intents, owners, tags, screenshot images, review authors, agency, icons and listing type are collected |
| Export.ExportRoots | ozpcenter/models/listing.py:52-85 | a listing is a root exactly when it is exportable and not private; there are never more roots than listings |
| Export.CollectAll | ozpcenter/api/export/views.py:68-72 | the loop of `run`: on success the dictionaries stay well formed |
| Export.TypedAll | ozpcenter/api/export/views.py:68-72 | the recursive "every listing is typed" agrees with "each listing has a type" |
| Export.CollectAllFails | ozpcenter/api/export/views.py:68-72 | `run` fails exactly when some root has no listing type, and then with the AttributeError of `_add_listing_type` |
| Export.CollectAllGrows | ozpcenter/api/export/views.py:68-72 | after `run` every dictionary has only grown from where it started and every reference between collected entities is collected |
| Export.CollectAllCovers | ozpcenter/api/export/views.py:68-72 | after `run` everything each root refers to is collected |
| Export.AllCollectedEach | ozpcenter/api/export/views.py:68-72 | collected for the whole list means collected for each listing of it |
| Export.Project | ozpcenter/api/export/views.py:187 | a `many=True` serializer gives one projection per element, in order |
| Export.ColumnValues | ozpcenter/api/export/views.py:189-202 | the serialized dictionary holds one entry per stored key, the value stored under the i-th inserted key at position i |
| Export.Serialize | ozpcenter/api/export/views.py:186-220 | fifteen lists: one entry per root listing, and one per collected entity of each dictionary, each entity once |
| ExportTasks.ExportTask.constructor | ozpcenter/api/export/views.py:50-66 | no listings and every dictionary empty |
| ExportTasks.ExportTask.AddImageType | ozpcenter/api/export/views.py:172-174 | the dictionaries become `Export.AddImageType` of the old ones; the roots are untouched |
| ExportTasks.ExportTask.AddImage | ozpcenter/api/export/views.py:166-170 | the dictionaries become `Export.AddImage` of the old ones |
| ExportTasks.ExportTask.AddAgency | ozpcenter/api/export/views.py:128-131 | the dictionaries become `Export.AddAgency` of the old ones |
| ExportTasks.ExportTask.AddIntent | ozpcenter/api/export/views.py:133-136 | the dictionaries become `Export.AddIntent` of the old ones |
| ExportTasks.ExportTask.AddProfile | ozpcenter/api/export/views.py:138-146 | the dictionaries become `Export.AddProfile` of the old ones |
| ExportTasks.ExportTask.AddCategory | ozpcenter/api/export/views.py:148-150 | the dictionaries become `Export.AddCategory` of the old ones |
| ExportTasks.ExportTask.AddChangeDetail | ozpcenter/api/export/views.py:124-126 | the dictionaries become `Export.AddChangeDetail` of the old ones |
| ExportTasks.ExportTask.AddListingActivity | ozpcenter/api/export/views.py:117-122 | the dictionaries become `Export.AddListingActivity` of the old ones |
| ExportTasks.ExportTask.AddCustomFieldType | ozpcenter/api/export/views.py:113-115 | the dictionaries become `Export.AddCustomFieldType` of the old ones |
| ExportTasks.ExportTask.AddCustomField | ozpcenter/api/export/views.py:107-111 | the dictionaries become `Export.AddCustomField` of the old ones |
| ExportTasks.ExportTask.AddContactType | ozpcenter/api/export/views.py:182-184 | the dictionaries become `Export.AddContactType` of the old ones |
| ExportTasks.ExportTask.AddContact | ozpcenter/api/export/views.py:176-180 | the dictionaries become `Export.AddContact` of the old ones |
| ExportTasks.ExportTask.AddTag | ozpcenter/api/export/views.py:156-158 | the dictionaries become `Export.AddTag` of the old ones |
| ExportTasks.ExportTask.AddIcons | ozpcenter/api/export/views.py:160-164 | the dictionaries become `Export.AddIcons` of the old ones |
| ExportTasks.ExportTask.AddAgencies | ozpcenter/api/export/views.py:142-146 | the loop leaves the dictionaries at `Export.AddAgencies` of the old ones |
| ExportTasks.ExportTask.AddChangeDetails | ozpcenter/api/export/views.py:121-122 | the loop leaves the dictionaries at `Export.AddChangeDetails` of the old ones |
| ExportTasks.ExportTask.AddActivities | ozpcenter/api/export/views.py:75-76 | the loop leaves the dictionaries at `Export.AddActivities` of the old ones |
| ExportTasks.ExportTask.AddCategories | ozpcenter/api/export/views.py:78-79 | the loop leaves the dictionaries at `Export.AddCategories` of the old ones |
| ExportTasks.ExportTask.AddCustomFieldValues | ozpcenter/api/export/views.py:81-82 | the loop leaves the dictionaries at `Export.AddCustomFieldValues` of the old ones |
| ExportTasks.ExportTask.AddContacts | ozpcenter/api/export/views.py:84-85 | the loop leaves the dictionaries at `Export.AddContacts` of the old ones |
| ExportTasks.ExportTask.AddIntents | ozpcenter/api/export/views.py:87-88 | the loop leaves the dictionaries at `Export.AddIntents` of the old ones |
| ExportTasks.ExportTask.AddOwners | ozpcenter/api/export/views.py:90-91 | the loop leaves the dictionaries at `Export.AddOwners` of the old ones |
| ExportTasks.ExportTask.AddTags | ozpcenter/api/export/views.py:93-94 | the loop leaves the dictionaries at `Export.AddTags` of the old ones |
| ExportTasks.ExportTask.AddScreenshots | ozpcenter/api/export/views.py:96-98 | the loop leaves the dictionaries at `Export.AddScreenshots` of the old ones |
| ExportTasks.ExportTask.AddReviewAuthors | ozpcenter/api/export/views.py:100-101 | the loop leaves the dictionaries at `Export.AddReviewAuthors` of the old ones |
| ExportTasks.ExportTask.AddListingType | ozpcenter/api/export/views.py:152-154 | a missing type is the AttributeError of `Export.AddListingType` and changes nothing; otherwise the dictionaries become its result |
| ExportTasks.ExportTask.AddListingRelated | ozpcenter/api/export/views.py:74-105 | success leaves the dictionaries at `Export.AddListingRelated` of the old ones; a missing listing type returns its error after everything else the listing refers to was collected |
| ExportTasks.ExportTask.Run | ozpcenter/api/export/views.py:68-72 | the roots are `Export.ExportRoots` of all listings; success leaves the dictionaries at `Export.CollectAll` of the roots; a failure means some root has no listing type and carries its AttributeError |
| ExportTasks.ExportTask.Serialize | ozpcenter/api/export/views.py:186-220 | `serialize`: the listings in order, then each of the fourteen collected dictionaries as the list of its values in insertion order |
| Tasks.RequestUrl | ozpcenter/tasks.py:103-106 | the task's URL unchanged when there are no extra parameters; the URL followed by the parameters when there are; a TypeError exactly when there are parameters but no URL |
| Tasks.GetImportData | ozpcenter/tasks.py:99-118 | succeeds exactly when the URL can be built, the request returns and its status is 200, and then gives that response; any other status raises ConnectionError "Connection Error: Expected status code 200, but received <status>" |
| Tasks.Records | ozpcenter/tasks.py:73-95 | one or two result rows, all for the task: two passes ("Empty Result", "Import Successful") exactly for an empty result; a single failure starting "Errors Found: " when the import reported errors; a single failure naming the task id when anything raised; the last row is a pass exactly when the import completed without errors |
| Tasks.TaskResults.constructor | ozpcenter/models/import_task_result.py:21-24 | no result rows, and no stored task has a last run result |
| Tasks.TaskResults.CreateResult | ozpcenter/models/import_task_result.py:21-24 | appends exactly one row and points the stored task's `last_run_result` at it; a task that is not stored is not updated |
| Tasks.TaskResults.RecordOutcome | ozpcenter/tasks.py:77-95 | appends exactly the rows `Tasks.Records` gives for the outcome, and the stored task ends up pointing at the last of them |
| Tasks.TaskResults.RunImportTask | ozpcenter/tasks.py:68-95 | records the rows of its outcome; a task that does not exist fails with DoesNotExist; a failed fetch fails with the fetch's error; a success means the fetch succeeded and every imported entity is stamped with the task's store and the run's time |
| Tasks.Import | ozpcenter/tasks.py:74-76 | fails with the fetch's error when the fetch fails; a success means the fetch succeeded and every imported entity is stamped with the task's store and the run's time |
| Text.UpperIdempotent | plugins/default_access_control/main.py:95-113 | upper-casing twice is upper-casing once |
| Text.Split | plugins/default_access_control/main.py:103 | `str.split` on a non-empty separator never returns an empty list |
| Text.SplitJoinRoundTrip | plugins/default_access_control/main.py:103 | joining the pieces of a split with the separator gives back the string |
| Text.NatToStringRoundTrip | ozpcenter/tasks.py:93 | the decimal digits `%d` prints read back as the number |
| Text.TrimZeros | ozpcenter/api/imports/serializers.py:169 | a prefix of the string, differing from it only by zeros, that does not itself end in a zero |
| Text.PointZerosDropped | ozpcenter/api/imports/serializers.py:169 | a final point and the zeros after it are dropped, and nothing else |
| Text.ParseInt | ozpcenter/api/imports/serializers.py:169 | the sign-and-ASCII-digits subset of `int(s)`: succeeds exactly on an optional sign followed by one or more decimal digits |
| Text.IntToStringParses | ozpcenter/api/imports/serializers.py:169 | `int('%d' % i) == i` for every integer |
| PyDict.Put | ozpcenter/api/export/views.py:109 | `d[k] = v` stores the value under the key; a new key is appended to the key order, an existing key keeps its place |
| PyDict.ValuesMembership | ozpcenter/api/export/views.py:189-202 | exactly the stored values appear in `values()` |
| PyDict.ValuesCount | ozpcenter/api/export/views.py:189-202 | `values()` has one entry per key |

## Left out

- ORM mechanics are abstracted. Querysets, managers, `select_related`/`prefetch_related`, signals and cascade deletes are gone. Tables are sequences of rows, and many-to-many relations are sets of links.
- `transaction.atomic` in the seed generator is not modelled. Its rollback is a database feature, so rows written before a failure stay in the model.
- Downloading and processing image files (HTTP and PIL) is not modelled. This covers `ImageSerializer.save` and `Image.create_image`. An imported image is saved by the generic upsert, and a seeded image is a row holding its extension, marking and type.
- The network, scheduling and e-mail are parameters or left out. `requests.get` is a function parameter of `Tasks.GetImportData`, and `Response.json()` is taken to return the decoded body without failing. The Celery schedule and the e-mail tasks of `ozpcenter/tasks.py` are not part of this model.
- Logging and `print` calls are omitted. They change no state the model tracks.
- Framework field validation is reduced to required, optional, null, integer and reference checks. The maximum lengths of text fields and date parsing are left out, and floats such as `avg_rate` are copied as opaque JSON values (the JSON values of this model have no float case).
- The clock is a parameter. `timezone.now()` is the `now` argument, and the run date of an `ImportTaskResult` is not stored.
- Notification peers are not encoded or decoded. JSON encoding and decoding are taken as the identity on an object.
- The token classes of the access-control plugin, the `Pipe` base class, and the plugin's authorization call are not part of this model. They become a datatype, the `Cursor` class and parameters.
- The export serializers are `data` projections. Each entity's serialized form is a `data` field carried by the entity. `VerticesEdgesPipe` and `EdgesVerticesPipe` (`ozpcenter/pipe/pipes.py:35-60`) are not modelled, because their `process_next_start` is an empty stub.
- A few references are non-null in the model. The export's tag, contact and contact type references, and an import task's affiliated store, are non-`Option` values. The source has no `None` guard for these and would raise on `None`.
- The `%s` rendering of an error list is a parameter (`show`) of `Tasks.Records`. The message of any other exception is its own text.
- When `Json.Iterate` iterates a JSON object (in `ModelSchema.ParseList` or the import service), each key stands as the empty string. Every entity parser rejects a string element whatever its text (`ModelSchema.StringElementsRejected`), and the import service rejects or raises on such an entry whatever its key is.
- Serializers.ToInteger: Python's `int()` also accepts surrounding whitespace, underscores between digits and non-ASCII decimal digits, and the framework's pattern also drops whitespace after the trailing zeros; only an optional sign followed by ASCII digits is read here.
- Text.ParseInt: reads only an optional sign followed by ASCII digits. Python's `int()` also accepts surrounding whitespace, underscores between digits and non-ASCII decimal digits.
- ModelSchema.ParseModel: states that it fails exactly when one of the twelve comprehensions fails, and with which error when `agencies` cannot be looked up, but not which later comprehension's error it raises when several fail.
- ModelGenerator.Generator.LinkAll: an object's keys are visited in an order the model leaves open, so a failure names some unregistered key rather than the first in Python's order.
- ModelGenerator.Generator: the lookup dictionaries (agenciesByTitle, categoriesByTitle, contactTypesByName, contactsByEmail, customFieldTypesByName, customFieldsByLabel, imageTypesByName, intentsByAction, listingTypesByTitle, profilesByUsername, tagsByName) are keyed by any JSON value. A list or object used as a key is filed or looked up like any other value, where Python raises TypeError because it cannot be hashed. `True` and `1` (and `False` and `0`) are one key in Python and two here. This holds for every filing and lookup: the Create* batch methods, CreateImageType, CreateCategory, CreateContactType, CreateListingType, CreateTag, CreateCustomFieldType, CreateCustomField, CreateContact, CreateImage, CreateAgency, CreateIntent, CreateProfile, CreateListing, CreateCustomFieldValues, CreateScreenshot, LinkAll and ActivityCalls.
- ModelGenerator.UserArgs: `groups`, `organizations` and `stewarded_organizations` must be lists of strings here, and anything else fails with TypeError. `create_user` accepts any iterable: a dictionary's keys, a string's characters, a non-string element that only fails at its lookup with DoesNotExist. Group membership is tested with `in`, so a string of groups would match substrings; the model does not follow that. A non-string `display_name` or `dn` fails with TypeError, where Django would store its `str()` form or reject None at the database. `normalize_email` also lower-cases the domain part, which is not modelled. `create_user` never reads `bio`, so it is passed as its text.
- Text.Upper: only ASCII letters are upper-cased, where Python's `str.upper()` maps every cased Unicode letter. Pipes.CapitalizePipe.ProcessNextStart, AccessControl.PluginMain.SplitTokens and AccessControl.PluginMain.ValidateMarking use it, so their results for non-ASCII text differ from the source's.
- `create_result` is not modelled failing inside the `except` branch of `run_import_task`.
- ImportService.ImportTask.Run: states what a successful run leaves: every listed instance stamped, the errors returned being the errors recorded, and no stale row of a swept kind. It does not give the error list as one function of the payload. The per-kind passes state their errors one entry at a time (`ImportService.EachEntryCounted`, `ImportService.CollectAll`).
- ModelGenerator.Generator.CreateModel: states the order in which entities are created on success. The error of a failing seed entry is stated by the single `Create*` method that raises it, not by `CreateModel`.
- ModelGenerator.Generator.CreateListings: states one listing per entry on success. The rows and links of each listing are stated by `CreateListing`.
- Export.ExportRoots: states which listings are roots, but not that they keep the order of the query. The order only affects which copy of an entity is collected first, and all copies with one id are the same entity.
