/** The registry an import fills as it goes: for each kind, the instances
    saved in this run by their id in the source store. References in later
    entries resolve through it. */
module ModelDicts {
  import opened Wrappers
  import opened Exceptions
  import opened Kinds
  import opened Store
  import PyDict

  /** A saved model instance: its kind, its primary key and its import
      metadata as saved. */
  datatype Instance = Instance(kind: Kind, pk: nat, metadata: Option<Metadata>)

  type Registry = map<Kind, PyDict.Dict<int, Instance>>

  ghost predicate ValidRegistry(models: Registry) {
    forall k :: k in models ==> PyDict.Valid(models[k])
  }

  /** `get(cls, external_id)` over the registry's contents. */
  function Lookup(models: Registry, k: Kind, externalId: int): (r: Option<Instance>)
    ensures k !in models ==> r.None?
    ensures k in models ==> (r.Some? <==> externalId in models[k].items)
    ensures r.Some? ==> r.value == models[k].items[externalId]
  {
    if k !in models then None
    else if externalId !in models[k].items then None
    else Some(models[k].items[externalId])
  }

  /** `list(cls)` over the registry's contents. */
  function ListOf(models: Registry, k: Kind): seq<Instance>
    requires ValidRegistry(models)
  {
    if k !in models then [] else PyDict.Values(models[k])
  }

  /** `list(cls)` holds exactly the instances `get(cls, ·)` can return, one
      per distinct external id. */
  lemma ListIsContents(models: Registry, k: Kind, x: Instance)
    requires ValidRegistry(models)
    ensures x in ListOf(models, k) <==> exists e :: Lookup(models, k, e) == Some(x)
    ensures k in models ==> |ListOf(models, k)| == |models[k].items|
    ensures k !in models ==> ListOf(models, k) == []
  {
    if k in models {
      var d := models[k];
      assert ListOf(models, k) == PyDict.Values(d);
      PyDict.ValuesCount(d);
      PyDict.ValuesMembership(d, x);
      var vs := PyDict.Values(d);
      if x in vs {
        var i :| 0 <= i < |vs| && vs[i] == x;
        assert d.keys[i] in d.items.Keys;
        assert Lookup(models, k, d.keys[i]) == Some(x);
      }
    }
  }

  class ModelDict {
    var models: Registry

    ghost predicate Valid()
      reads this`models
    {
      ValidRegistry(models)
    }

    constructor ()
      ensures Valid() && models == map[]
    {
      models := map[];
    }

    function Get(k: Kind, externalId: int): Option<Instance>
      reads this`models
    {
      Lookup(models, k, externalId)
    }

    function List(k: Kind): seq<Instance>
      reads this`models
      requires Valid()
    {
      ListOf(models, k)
    }

    /** `add(instance)`: files it under its class and external id,
        replacing any instance filed there before. An instance without
        import metadata fails on `.external_id`, after its class has been
        given an (empty) entry. */
    method Add(x: Instance) returns (r: Result<(), Exception>)
      requires Valid()
      modifies this`models
      ensures Valid()
      ensures x.metadata.None? ==>
                && r == Err(AttributeError("'NoneType' object has no attribute 'external_id'"))
                && models == old(models)[x.kind := Slot(old(models), x.kind)]
      ensures x.metadata.Some? ==> r.Ok? && models == AddTo(old(models), x, x.metadata.value.externalId)
    {
      if x.kind !in models {
        models := models[x.kind := PyDict.Empty()];
      }
      if x.metadata.None? {
        return Err(AttributeError("'NoneType' object has no attribute 'external_id'"));
      }
      var externalId := x.metadata.value.externalId;
      models := models[x.kind := PyDict.Put(models[x.kind], externalId, x)];
      return Ok(());
    }
  }

  /** The instances filed under `k`, or a fresh empty entry. */
  function Slot(models: Registry, k: Kind): PyDict.Dict<int, Instance> {
    if k in models then models[k] else PyDict.Empty()
  }

  /** The registry once `x` is filed under its kind and `externalId`. */
  function AddTo(models: Registry, x: Instance, externalId: int): Registry
    requires ValidRegistry(models)
  {
    models[x.kind := PyDict.Put(Slot(models, x.kind), externalId, x)]
  }

  /** After filing, `get` finds the instance under its kind and id, every
      other (kind, id) pair finds what it found before, the kind's ids grow
      by this one, and every other kind is untouched. */
  lemma AddFiles(models: Registry, x: Instance, externalId: int)
    requires ValidRegistry(models)
    ensures var after := AddTo(models, x, externalId);
            && ValidRegistry(after)
            && Lookup(after, x.kind, externalId) == Some(x)
            && (forall k, e :: k != x.kind || e != externalId ==> Lookup(after, k, e) == Lookup(models, k, e))
            && after[x.kind].items.Keys == Slot(models, x.kind).items.Keys + {externalId}
            && (forall k :: k != x.kind ==> (k in after <==> k in models) && (k in after ==> after[k] == models[k]))
            && (forall k :: k != x.kind ==> ListOf(after, k) == ListOf(models, k))
  {
  }

  /** Adding under an external id already filed replaces the instance and
      keeps the number of instances of that kind. */
  lemma AddReplaces(models: Registry, x: Instance, externalId: int)
    requires ValidRegistry(models) && x.kind in models && externalId in models[x.kind].items
    ensures var after := AddTo(models, x, externalId);
            && ValidRegistry(after)
            && |ListOf(after, x.kind)| == |ListOf(models, x.kind)|
            && x in ListOf(after, x.kind)
  {
    var after := AddTo(models, x, externalId);
    ListIsContents(models, x.kind, x);
    ListIsContents(after, x.kind, x);
    assert Lookup(after, x.kind, externalId) == Some(x);
  }
}
