/** The persistence the import engine writes to, as in-memory tables: each
    kind is a sequence of rows indexed by primary key, in insertion order,
    and a row that was deleted is `None`. A record may carry import
    metadata (the store it came from, its id there, and when it was last
    imported). */
module Store {
  import opened Wrappers
  import opened Json
  import opened Kinds

  datatype Metadata = Metadata(store: nat, externalId: int, lastUpdated: int)

  /** A to-one field's value: a plain value, or a reference to a row. */
  datatype Value = Plain(j: Json) | RefTo(kind: Kind, pk: nat) | RefsTo(kind: Kind, pks: seq<nat>)

  /** A row: its import metadata (`None` for an internal row), its to-one
      fields and the rows each to-many relation links to. */
  datatype Record = Record(metadata: Option<Metadata>, fields: map<string, Value>, links: map<string, set<nat>>)

  type Table = seq<Option<Record>>

  /** The row came from `store`, where its id is `externalId`. */
  predicate ImportedFrom(row: Option<Record>, store: nat, externalId: int) {
    row.Some? && row.value.metadata.Some?
    && row.value.metadata.value.store == store && row.value.metadata.value.externalId == externalId
  }

  /** `cls.objects.filter(import_metadata__affiliated_store=store,
      import_metadata__external_id=externalId).first()`: the matching row
      with the smallest primary key. */
  function FindExternal(t: Table, store: nat, externalId: int): (r: Option<nat>)
    ensures r.Some? ==> r.value < |t| && ImportedFrom(t[r.value], store, externalId)
    ensures r.Some? ==> forall j :: 0 <= j < r.value ==> !ImportedFrom(t[j], store, externalId)
    ensures r.None? ==> forall j :: 0 <= j < |t| ==> !ImportedFrom(t[j], store, externalId)
  {
    if |t| == 0 then None
    else
      match FindExternal(t[..|t| - 1], store, externalId)
      case Some(pk) => Some(pk)
      case None => if ImportedFrom(t[|t| - 1], store, externalId) then Some(|t| - 1) else None
  }

  /** No store has two live rows under the same external id. */
  ghost predicate UniqueExternal(t: Table) {
    forall i, j, s, e :: 0 <= i < j < |t| && ImportedFrom(t[i], s, e) ==> !ImportedFrom(t[j], s, e)
  }

  /** Under uniqueness, the row found is the only one. */
  lemma FoundIsOnly(t: Table, store: nat, externalId: int, j: nat)
    requires UniqueExternal(t) && j < |t| && ImportedFrom(t[j], store, externalId)
    ensures FindExternal(t, store, externalId) == Some(j)
  {
    var r := FindExternal(t, store, externalId);
    assert r.Some? && ImportedFrom(t[r.value], store, externalId);
  }

  /** Rewriting a row under the same store and external id keeps external
      ids unique. */
  lemma ReplaceKeepsUnique(t: Table, pk: nat, r: Record)
    requires UniqueExternal(t) && pk < |t| && t[pk].Some? && t[pk].value.metadata.Some? && r.metadata.Some?
    requires r.metadata.value.store == t[pk].value.metadata.value.store
    requires r.metadata.value.externalId == t[pk].value.metadata.value.externalId
    ensures UniqueExternal(t[pk := Some(r)])
  {
    var u := t[pk := Some(r)];
    forall i, j, s, e | 0 <= i < j < |u| && ImportedFrom(u[i], s, e)
      ensures !ImportedFrom(u[j], s, e)
    {
      assert ImportedFrom(t[i], s, e);
    }
  }

  /** Appending a row under a store and external id no row has yet keeps
      external ids unique. */
  lemma AppendKeepsUnique(t: Table, r: Record)
    requires UniqueExternal(t) && r.metadata.Some?
    requires FindExternal(t, r.metadata.value.store, r.metadata.value.externalId).None?
    ensures UniqueExternal(t + [Some(r)])
  {
    var u := t + [Some(r)];
    forall i, j, s, e | 0 <= i < j < |u| && ImportedFrom(u[i], s, e)
      ensures !ImportedFrom(u[j], s, e)
    {
      assert u[i] == t[i];
    }
  }

  /** A row the sweep removes: imported from `store` and not touched since
      before `timestamp`. */
  predicate Stale(row: Option<Record>, store: nat, timestamp: int) {
    row.Some? && row.value.metadata.Some?
    && row.value.metadata.value.store == store && row.value.metadata.value.lastUpdated < timestamp
  }

  /** The table after `filter(store, last_updated < timestamp).delete()`. */
  function Sweep(t: Table, store: nat, timestamp: int): (r: Table)
    ensures |r| == |t|
  {
    seq(|t|, i requires 0 <= i < |t| => if Stale(t[i], store, timestamp) then None else t[i])
  }

  /** The sweep deletes exactly the stale rows: every row of another store,
      every internal row and every row imported at `timestamp` or later
      stays as it was. */
  lemma SweepDeletesExactlyStale(t: Table, store: nat, timestamp: int, i: nat)
    requires i < |t|
    ensures Stale(t[i], store, timestamp) ==> Sweep(t, store, timestamp)[i].None?
    ensures !Stale(t[i], store, timestamp) ==> Sweep(t, store, timestamp)[i] == t[i]
    ensures t[i].Some? && t[i].value.metadata.None? ==> Sweep(t, store, timestamp)[i] == t[i]
    ensures t[i].Some? && t[i].value.metadata.Some? && t[i].value.metadata.value.store != store ==>
              Sweep(t, store, timestamp)[i] == t[i]
    ensures t[i].Some? && t[i].value.metadata.Some? && t[i].value.metadata.value.lastUpdated >= timestamp ==>
              Sweep(t, store, timestamp)[i] == t[i]
  {
  }

  /** Sweeping twice removes nothing more. */
  lemma SweepIdempotent(t: Table, store: nat, timestamp: int)
    ensures Sweep(Sweep(t, store, timestamp), store, timestamp) == Sweep(t, store, timestamp)
  {
    var once := Sweep(t, store, timestamp);
    assert forall i :: 0 <= i < |t| ==> Sweep(once, store, timestamp)[i] == once[i];
  }

  /** Deleting rows keeps external ids unique. */
  lemma SweepKeepsUnique(t: Table, store: nat, timestamp: int)
    requires UniqueExternal(t)
    ensures UniqueExternal(Sweep(t, store, timestamp))
  {
    var r := Sweep(t, store, timestamp);
    forall i, j, s, e | 0 <= i < j < |r| && ImportedFrom(r[i], s, e)
      ensures !ImportedFrom(r[j], s, e)
    {
      assert ImportedFrom(t[i], s, e);
    }
  }

  class Database {
    var tables: map<Kind, Table>

    constructor ()
      ensures tables == map[]
    {
      tables := map[];
    }

    /** The rows of kind `k`; a kind never written has none. */
    function Rows(k: Kind): Table
      reads this`tables
    {
      if k in tables then tables[k] else []
    }

    /** `instance.save()` of a new instance: the next primary key. */
    method Insert(k: Kind, r: Record) returns (pk: nat)
      modifies this`tables
      ensures pk == |old(Rows(k))|
      ensures tables == old(tables)[k := old(Rows(k)) + [Some(r)]]
    {
      pk := |Rows(k)|;
      tables := tables[k := Rows(k) + [Some(r)]];
    }

    /** `instance.save()` of an instance that has a primary key. */
    method Update(k: Kind, pk: nat, r: Record)
      requires pk < |Rows(k)|
      modifies this`tables
      ensures tables == old(tables)[k := old(Rows(k))[pk := Some(r)]]
    {
      tables := tables[k := Rows(k)[pk := Some(r)]];
    }

    /** `clean_model_type`: deletes the rows of `k` that `store` imported
        before `timestamp`. */
    method DeleteStale(k: Kind, store: nat, timestamp: int)
      modifies this`tables
      ensures tables == old(tables)[k := Sweep(old(Rows(k)), store, timestamp)]
    {
      tables := tables[k := Sweep(Rows(k), store, timestamp)];
    }
  }
}
