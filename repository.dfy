/** The repository: the select, update and delete operations of one entity
    type, optionally reading through a cache and invalidating it before
    writes. The ORM's query execution and the ORM model's `getKeyName()`,
    and the base `EloquentRepository` class's `cacheKey()`,
    `cacheTTLValue()` and `invalidateCache($model)`, are fixed when the
    repository is built. */
module EloquentRepository {
  import opened Domain
  import opened Flattening
  import opened Queries
  import opened CacheKeys
  import opened Store

  /** A value a query or the cache hands back: a collection of rows, one
      model, or null. The cache holds whatever `remember` computed. */
  datatype Fetched = Rows(rows: seq<Entity>) | One(model: Entity) | Nothing

  /** A cache entry: the value and the TTL it was stored with (an opaque
      number; no clock is modelled). */
  datatype Entry = Entry(value: Fetched, ttl: int)

  type Cache = map<string, Entry>

  /** The ORM's execution of a built query against the stored rows. */
  datatype Orm = Orm(
    get: (Table, Query) -> seq<Entity>,
    first: (Table, Query) -> Option<Entity>,
    paginate: (Table, Query, int) -> seq<Entity>)

  /** An operation's outcome. NotFound carries the id only for lookups by id;
      BadMethodCall is raised by soft-delete operations on an entity without
      soft deletes, and by a model method called on a collection. */
  datatype Result<T> = Ok(value: T) | NotFound(id: Option<Id>) | BadMethodCall

  /** Which terminal call ran a built query. */
  datatype Terminal = GetCall | FirstCall | PaginateCall(perPage: int)

  /** What the repository asked of the cache and of the store, in order. */
  datatype Event =
    | CacheRead(key: string)      // remember() looked the key up
    | CacheStore(key: string)     // remember() stored a computed value
    | Invalidate(target: Fetched) // invalidateCache($model)
    | StoreFind(id: Id)           // find($id) on the store
    | StoreFindTrashed(id: Id)    // onlyTrashed()->find($id)
    | StoreRun(query: Query, terminal: Terminal)
    | StoreSave(id: Id)           // fill(...)->save()
    | StoreReload(id: Id)         // refresh()
    | StoreDelete(id: Id)         // $model->delete()
    | StoreRestore(id: Id)        // $model->restore()

  /** The value `find` produces from a store lookup. */
  function AsFetched(found: Option<Entity>): (v: Fetched)
    ensures v == Nothing <==> found == None
    ensures found.Some? ==> v == One(found.value)
  {
    if found.Some? then One(found.value) else Nothing
  }

  /** The not-found check after a lookup by id: a null result raises NotFound
      with the id, anything else is returned. */
  function CheckFound(id: Id, v: Fetched): (r: Result<Fetched>)
    ensures r.NotFound? <==> v == Nothing
    ensures r.NotFound? ==> r.id == Some(id)
    ensures !r.NotFound? ==> r == Ok(v)
  {
    if v == Nothing then NotFound(Some(id)) else Ok(v)
  }

  /** The not-found check after a `first()`: NotFound carries no id. */
  function CheckFirst(found: Option<Entity>): (r: Result<Entity>)
    ensures r.NotFound? <==> found == None
    ensures r.NotFound? ==> r.id == None
    ensures !r.NotFound? ==> found.Some? && r == Ok(found.value)
  {
    if found.None? then NotFound(None) else Ok(found.value)
  }

  class Repository {
    /** Whether the repository implements Cacheable. */
    const cacheable: bool
    /** Whether the entity has a `restore` method (uses soft deletes). */
    const softDeletes: bool
    /** `cacheKey()`. */
    const prefix: string
    /** `cacheTTLValue()`. */
    const ttl: int
    /** `getKeyName()`: the primary key column. */
    const keyName: string
    const orm: Orm
    /** `invalidateCache($model)`: its effect on the cache is not known here. */
    const invalidate: (Cache, Fetched) -> Cache

    var store: map<string, Entity>
    var trashed: set<string>
    var cache: Cache
    ghost var trace: seq<Event>

    ghost predicate Valid()
      reads this
    {
      Store.Valid(Table(store, trashed)) && (!softDeletes ==> trashed == {})
    }

    function Snapshot(): (t: Table)
      reads this
      ensures t.rows == store && t.trashed == trashed
    {
      Table(store, trashed)
    }

    /** What `find($id)` yields in the current state: the cached value when
        the repository is cacheable and the key is present, otherwise the
        store lookup. */
    ghost function Lookup(id: Id): Fetched
      reads this
    {
      var key := ItemKey(prefix, id);
      if cacheable && key in cache then cache[key].value else AsFetched(FindLive(Snapshot(), id))
    }

    /** The events `find($id)` records in the current state. */
    ghost function FindEvents(id: Id): seq<Event>
      reads this
    {
      var key := ItemKey(prefix, id);
      if !cacheable then [StoreFind(id)]
      else if key in cache then [CacheRead(key)]
      else [CacheRead(key), StoreFind(id), CacheStore(key)]
    }

    /** The cache after `find($id)` in the current state. */
    ghost function CacheAfterFind(id: Id): Cache
      reads this
    {
      var key := ItemKey(prefix, id);
      if cacheable && key !in cache then cache[key := Entry(Lookup(id), ttl)] else cache
    }

    /** Two ids with the same string form, such as the integer 7 and the
        string "7", are one lookup: the cache key and the store key are both
        built from that string. */
    lemma SameStringSameLookup(a: Id, b: Id)
      requires IdString(a) == IdString(b)
      ensures Lookup(a) == Lookup(b)
      ensures CacheAfterFind(a) == CacheAfterFind(b)
    {
      ItemKeysCoincide(prefix, a, b);
    }

    constructor (cacheable: bool, softDeletes: bool, prefix: string, ttl: int, keyName: string,
                 orm: Orm, invalidate: (Cache, Fetched) -> Cache, initial: Table)
      requires Store.Valid(initial)
      requires !softDeletes ==> initial.trashed == {}
      ensures Valid()
      ensures this.cacheable == cacheable && this.softDeletes == softDeletes
      ensures this.prefix == prefix && this.ttl == ttl && this.keyName == keyName
      ensures this.orm == orm && this.invalidate == invalidate
      ensures Snapshot() == initial && cache == map[] && trace == []
    {
      this.cacheable := cacheable;
      this.softDeletes := softDeletes;
      this.prefix := prefix;
      this.ttl := ttl;
      this.keyName := keyName;
      this.orm := orm;
      this.invalidate := invalidate;
      store := initial.rows;
      trashed := initial.trashed;
      cache := map[];
      trace := [];
    }

    /** `$this->cache->remember($key, $ttl, $produce)`: a hit returns the
        stored value and runs nothing else; a miss runs the producer (whose
        store access is `fetch`), stores its value and returns it. */
    method Remember(key: string, produce: () -> Fetched, ghost fetch: Event) returns (v: Fetched)
      modifies this`cache, this`trace
      ensures key in old(cache) ==> v == old(cache)[key].value && cache == old(cache)
      ensures key in old(cache) ==> trace == old(trace) + [CacheRead(key)]
      ensures key !in old(cache) ==> v == produce() && cache == old(cache)[key := Entry(v, ttl)]
      ensures key !in old(cache) ==> trace == old(trace) + [CacheRead(key), fetch, CacheStore(key)]
    {
      trace := trace + [CacheRead(key)];
      if key in cache {
        v := cache[key].value;
      } else {
        v := produce();
        trace := trace + [fetch];
        cache := cache[key := Entry(v, ttl)];
        trace := trace + [CacheStore(key)];
      }
    }

    // ---- SelectsEntity ------------------------------------------------

    /** `get(...$columns)`: runs the base query projected on the flattened
        columns (`['*']` when there are none); the cache is not involved. */
    method Get(columns: seq<Arg>) returns (rows: seq<Entity>)
      modifies this`trace
      ensures rows == orm.get(Snapshot(), GetQuery(columns))
      ensures trace == old(trace) + [StoreRun(GetQuery(columns), GetCall)]
    {
      var q := Select(Base, Projection(columns));
      rows := orm.get(Snapshot(), q);
      trace := trace + [StoreRun(q, GetCall)];
    }

    /** `all()`: without a cache, exactly `get()`; with one, a read-through
        of the list-all key whose producer is `get()`. */
    method All() returns (v: Fetched)
      modifies this`cache, this`trace
      ensures !cacheable ==> v == Rows(orm.get(old(Snapshot()), GetQuery([])))
      ensures !cacheable ==> cache == old(cache) && trace == old(trace) + [StoreRun(GetQuery([]), GetCall)]
      ensures cacheable && ListKey(prefix) in old(cache) ==>
        v == old(cache)[ListKey(prefix)].value && cache == old(cache) && trace == old(trace) + [CacheRead(ListKey(prefix))]
      ensures cacheable && ListKey(prefix) !in old(cache) ==>
        && v == Rows(orm.get(old(Snapshot()), GetQuery([])))
        && cache == old(cache)[ListKey(prefix) := Entry(v, ttl)]
        && trace == old(trace) + [CacheRead(ListKey(prefix)), StoreRun(GetQuery([]), GetCall), CacheStore(ListKey(prefix))]
    {
      if cacheable {
        var t, q, get := Snapshot(), GetQuery([]), orm.get;
        v := Remember(ListKey(prefix), () => Rows(get(t, q)), StoreRun(q, GetCall));
      } else {
        var rows := Get([]);
        v := Rows(rows);
      }
    }

    /** Two consecutive `all()` calls on a cacheable repository with nothing
        in between: both return the same value, the cached one or else the
        listing, and the store listing runs at most once (only when the first
        call misses). */
    method AllTwice() returns (first: Fetched, second: Fetched)
      requires cacheable
      modifies this`cache, this`trace
      ensures second == first
      ensures ListKey(prefix) in old(cache) ==>
        first == old(cache)[ListKey(prefix)].value && cache == old(cache)
      ensures ListKey(prefix) !in old(cache) ==>
        && first == Rows(orm.get(old(Snapshot()), GetQuery([])))
        && cache == old(cache)[ListKey(prefix) := Entry(first, ttl)]
      ensures ListKey(prefix) in old(cache) ==>
        trace == old(trace) + [CacheRead(ListKey(prefix)), CacheRead(ListKey(prefix))]
      ensures ListKey(prefix) !in old(cache) ==>
        trace == old(trace) + [CacheRead(ListKey(prefix)), StoreRun(GetQuery([]), GetCall),
                               CacheStore(ListKey(prefix)), CacheRead(ListKey(prefix))]
    {
      first := All();
      second := All();
    }

    /** `find($id)`: a read-through of the per-id key when cacheable, a store
        lookup otherwise; a null result raises NotFound carrying the id. */
    method Find(id: Id) returns (r: Result<Fetched>)
      modifies this`cache, this`trace
      ensures r == CheckFound(id, old(Lookup(id)))
      ensures cache == old(CacheAfterFind(id))
      ensures trace == old(trace) + old(FindEvents(id))
    {
      var v: Fetched;
      var t := Snapshot();
      if cacheable {
        v := Remember(ItemKey(prefix, id), () => AsFetched(FindLive(t, id)), StoreFind(id));
      } else {
        v := AsFetched(FindLive(t, id));
        trace := trace + [StoreFind(id)];
      }
      r := CheckFound(id, v);
    }

    /** `paginate($perPage)`: passed to the ORM; the cache is not involved. */
    method Paginate(perPage: int) returns (rows: seq<Entity>)
      modifies this`trace
      ensures rows == orm.paginate(Snapshot(), Base, perPage)
      ensures trace == old(trace) + [StoreRun(Base, PaginateCall(perPage))]
    {
      rows := orm.paginate(Snapshot(), Base, perPage);
      trace := trace + [StoreRun(Base, PaginateCall(perPage))];
    }

    /** `getWhere($column, $value = null)`: one `where` (the array form
        ignores `value`), then `get()`; the cache is not involved. */
    method GetWhere(column: ColumnArg, value: Value := Null) returns (rows: seq<Entity>)
      modifies this`trace
      ensures rows == orm.get(Snapshot(), Where(Base, WhereCondition(column, value)))
      ensures trace == old(trace) + [StoreRun(Where(Base, WhereCondition(column, value)), GetCall)]
    {
      var q := Where(Base, WhereCondition(column, value));
      rows := orm.get(Snapshot(), q);
      trace := trace + [StoreRun(q, GetCall)];
    }

    /** `getWhereIn($column, $values)`: one `whereIn`, then `get()`. */
    method GetWhereIn(column: string, values: seq<Value>) returns (rows: seq<Entity>)
      modifies this`trace
      ensures rows == orm.get(Snapshot(), Where(Base, WhereIn(column, values)))
      ensures trace == old(trace) + [StoreRun(Where(Base, WhereIn(column, values)), GetCall)]
    {
      var q := Where(Base, WhereIn(column, values));
      rows := orm.get(Snapshot(), q);
      trace := trace + [StoreRun(q, GetCall)];
    }

    /** `getWhereFirst($column, $value = null)`: the first match, or NotFound
        without an id. */
    method GetWhereFirst(column: ColumnArg, value: Value := Null) returns (r: Result<Entity>)
      modifies this`trace
      ensures r == CheckFirst(orm.first(Snapshot(), Where(Base, WhereCondition(column, value))))
      ensures trace == old(trace) + [StoreRun(Where(Base, WhereCondition(column, value)), FirstCall)]
    {
      var q := Where(Base, WhereCondition(column, value));
      r := CheckFirst(orm.first(Snapshot(), q));
      trace := trace + [StoreRun(q, FirstCall)];
    }

    /** `getWhereInFirst($column, $values)`: the first match, or NotFound
        without an id. */
    method GetWhereInFirst(column: string, values: seq<Value>) returns (r: Result<Entity>)
      modifies this`trace
      ensures r == CheckFirst(orm.first(Snapshot(), Where(Base, WhereIn(column, values))))
      ensures trace == old(trace) + [StoreRun(Where(Base, WhereIn(column, values)), FirstCall)]
    {
      var q := Where(Base, WhereIn(column, values));
      r := CheckFirst(orm.first(Snapshot(), q));
      trace := trace + [StoreRun(q, FirstCall)];
    }

    /** `getWhereFirstWithSorted($conditions, $sortedBy = null)`: the first
        row of the sorted query, or NotFound without an id. */
    method GetWhereFirstWithSorted(conditions: seq<(string, Value)>, sortedBy: Option<seq<Sort>> := None)
      returns (r: Result<Entity>, ghost q: Query)
      modifies this`trace
      ensures q.conditions == [WhereAll(conditions)]
      ensures q.orders == EffectiveSort(sortedBy, keyName)
      ensures q.(conditions := [], orders := []) == Base
      ensures r == CheckFirst(orm.first(Snapshot(), q))
      ensures trace == old(trace) + [StoreRun(q, FirstCall)]
    {
      var built := OrderedWhere(Base, conditions, sortedBy, keyName);
      q := built;
      r := CheckFirst(orm.first(Snapshot(), built));
      trace := trace + [StoreRun(built, FirstCall)];
    }

    /** `getWhereWithSorted($conditions, $sortedBy = null, $limit = 5000,
        $offset = 0)`: the sorted query, then `skip($offset)` and
        `take($limit)`, then `get()`. */
    method GetWhereWithSorted(conditions: seq<(string, Value)>, sortedBy: Option<seq<Sort>> := None,
                              limit: Option<int> := Some(5000), offset: Option<int> := Some(0))
      returns (rows: seq<Entity>, ghost q: Query)
      modifies this`trace
      ensures q.conditions == [WhereAll(conditions)]
      ensures q.orders == EffectiveSort(sortedBy, keyName)
      ensures q.skip == offset && q.take == limit
      ensures q.(conditions := [], orders := [], skip := None, take := None) == Base
      ensures rows == orm.get(Snapshot(), q)
      ensures trace == old(trace) + [StoreRun(q, GetCall)]
    {
      var built := OrderedWhere(Base, conditions, sortedBy, keyName);
      built := Take(Skip(built, offset), limit);
      q := built;
      rows := orm.get(Snapshot(), built);
      trace := trace + [StoreRun(built, GetCall)];
    }

    // ---- UpdatesEntity --------------------------------------------------

    /** `update($model, $properties)`: invalidate first (when cacheable), then
        fill and save, then reload. The save writes only the model's changes
        onto its stored row; the reload returns that row, and fails with the
        ORM's NotFound (carrying no id) when the row is no longer stored.
        Only the model's row changes. */
    method Update(m: Entity, properties: map<string, Value>) returns (r: Result<Entity>)
      requires Valid()
      modifies this`store, this`cache, this`trace
      ensures Valid()
      ensures Snapshot() == WithUpdated(old(Snapshot()), m.id, Changes(m, properties))
      ensures IdString(m.id) in old(store) ==> r == Ok(store[IdString(m.id)])
      ensures IdString(m.id) !in old(store) ==> r == NotFound(None)
      ensures IdString(m.id) in old(store) && old(store)[IdString(m.id)] == m ==> r == Ok(Fill(m, properties))
      ensures cacheable ==> cache == invalidate(old(cache), One(m))
      ensures cacheable ==> trace == old(trace) + [Invalidate(One(m)), StoreSave(m.id), StoreReload(m.id)]
      ensures !cacheable ==> cache == old(cache) && trace == old(trace) + [StoreSave(m.id), StoreReload(m.id)]
      ensures r.Ok? && IdString(m.id) !in trashed && (!cacheable || ItemKey(prefix, m.id) !in cache) ==>
        Lookup(m.id) == One(r.value)
    {
      if cacheable {
        cache := invalidate(cache, One(m));
        trace := trace + [Invalidate(One(m))];
      }
      var t := WithUpdated(Snapshot(), m.id, Changes(m, properties));
      store := t.rows;
      trace := trace + [StoreSave(m.id)];
      var k := IdString(m.id);
      if k in store {
        r := Ok(store[k]);
      } else {
        r := NotFound(None);
      }
      trace := trace + [StoreReload(m.id)];
      if k in old(store) && old(store)[k] == m {
        FreshModelUpdate(old(Snapshot()), m, properties);
      }
    }

    /** `findAndUpdate($modelId, $properties)`: `find`, then `update` of what
        was found. A failed find changes no row and invalidates nothing. A
        collection found in the cache is invalidated and then refuses `fill`
        with BadMethodCall, leaving the rows as they were. */
    method FindAndUpdate(id: Id, properties: map<string, Value>) returns (r: Result<Entity>)
      requires Valid()
      modifies this`store, this`cache, this`trace
      ensures Valid()
      ensures old(Lookup(id)) == Nothing ==>
        && r == NotFound(Some(id))
        && Snapshot() == old(Snapshot())
        && cache == old(CacheAfterFind(id))
        && trace == old(trace) + old(FindEvents(id))
      ensures old(Lookup(id)).Rows? ==>
        && r == BadMethodCall
        && Snapshot() == old(Snapshot())
        && cache == invalidate(old(cache), old(Lookup(id)))
        && trace == old(trace) + old(FindEvents(id)) + [Invalidate(old(Lookup(id)))]
      ensures old(Lookup(id)).One? ==>
        var m := old(Lookup(id)).model;
        && Snapshot() == WithUpdated(old(Snapshot()), m.id, Changes(m, properties))
        && (IdString(m.id) in old(store) ==> r == Ok(store[IdString(m.id)]))
        && (IdString(m.id) !in old(store) ==> r == NotFound(None))
        && (!cacheable ==> r == Ok(Fill(m, properties)))
        && (cacheable ==> cache == invalidate(old(CacheAfterFind(id)), One(m)))
        && (!cacheable ==> cache == old(cache))
        && trace == old(trace) + old(FindEvents(id))
                    + (if cacheable then [Invalidate(One(m))] else []) + [StoreSave(m.id), StoreReload(m.id)]
    {
      ghost var t0 := Snapshot();
      var found := Find(id);
      if found.NotFound? {
        r := NotFound(found.id);
      } else if found.value.One? {
        var m := found.value.model;
        if !cacheable {
          assert FindLive(t0, id) == Some(m);
          assert IdString(m.id) == IdString(id) && t0.rows[IdString(m.id)] == m;
        }
        r := Update(m, properties);
      } else {
        if cacheable {
          cache := invalidate(cache, found.value);
          trace := trace + [Invalidate(found.value)];
        }
        r := BadMethodCall;
      }
    }

    // ---- DeletesEntity --------------------------------------------------

    /** `delete($model)`: invalidate first (when cacheable), then delete the
        row; the result is the store's, true when the row was stored. */
    method Delete(m: Entity) returns (deleted: bool)
      requires Valid()
      modifies this`store, this`trashed, this`cache, this`trace
      ensures Valid()
      ensures deleted == (IdString(m.id) in old(store))
      ensures Snapshot() == WithDeleted(old(Snapshot()), m.id, softDeletes)
      ensures cacheable ==> cache == invalidate(old(cache), One(m))
      ensures cacheable ==> trace == old(trace) + [Invalidate(One(m)), StoreDelete(m.id)]
      ensures !cacheable ==> cache == old(cache) && trace == old(trace) + [StoreDelete(m.id)]
      ensures !cacheable || ItemKey(prefix, m.id) !in cache ==> Lookup(m.id) == Nothing
    {
      if cacheable {
        cache := invalidate(cache, One(m));
        trace := trace + [Invalidate(One(m))];
      }
      deleted := IdString(m.id) in store;
      var t := WithDeleted(Snapshot(), m.id, softDeletes);
      store, trashed := t.rows, t.trashed;
      trace := trace + [StoreDelete(m.id)];
    }

    /** `findAndDelete($modelId)`: `find`, then `delete` of what was found.
        A failed find deletes nothing and invalidates nothing. A collection
        found in the cache is invalidated and then refuses `delete` with
        BadMethodCall, leaving the rows as they were. */
    method FindAndDelete(id: Id) returns (r: Result<bool>)
      requires Valid()
      modifies this`store, this`trashed, this`cache, this`trace
      ensures Valid()
      ensures old(Lookup(id)) == Nothing ==>
        && r == NotFound(Some(id))
        && Snapshot() == old(Snapshot())
        && cache == old(CacheAfterFind(id))
        && trace == old(trace) + old(FindEvents(id))
      ensures old(Lookup(id)).Rows? ==>
        && r == BadMethodCall
        && Snapshot() == old(Snapshot())
        && cache == invalidate(old(cache), old(Lookup(id)))
        && trace == old(trace) + old(FindEvents(id)) + [Invalidate(old(Lookup(id)))]
      ensures old(Lookup(id)).One? ==>
        var m := old(Lookup(id)).model;
        && r == Ok(IdString(m.id) in old(store))
        && Snapshot() == WithDeleted(old(Snapshot()), m.id, softDeletes)
        && (cacheable ==> cache == invalidate(old(CacheAfterFind(id)), One(m)))
        && (!cacheable ==> cache == old(cache))
        && trace == old(trace) + old(FindEvents(id))
                    + (if cacheable then [Invalidate(One(m))] else []) + [StoreDelete(m.id)]
    {
      var found := Find(id);
      if found.NotFound? {
        r := NotFound(found.id);
      } else if found.value.One? {
        var deleted := Delete(found.value.model);
        r := Ok(deleted);
      } else {
        if cacheable {
          cache := invalidate(cache, found.value);
          trace := trace + [Invalidate(found.value)];
        }
        r := BadMethodCall;
      }
    }

    /** `findFromTrashed($modelId)`: BadMethodCall before any lookup when the
        entity has no soft deletes; otherwise a lookup among trashed rows only,
        never through the cache, raising NotFound with the id on a miss. */
    method FindFromTrashed(id: Id) returns (r: Result<Entity>)
      modifies this`trace
      ensures !softDeletes ==> r == BadMethodCall && trace == old(trace)
      ensures softDeletes ==> trace == old(trace) + [StoreFindTrashed(id)]
      ensures softDeletes ==> (r.NotFound? <==> FindTrashed(Snapshot(), id) == None)
      ensures softDeletes && r.NotFound? ==> r.id == Some(id)
      ensures softDeletes && !r.NotFound? ==> r == Ok(store[IdString(id)]) && IdString(id) in trashed
    {
      if !softDeletes {
        return BadMethodCall;
      }
      trace := trace + [StoreFindTrashed(id)];
      var found := FindTrashed(Snapshot(), id);
      if found.None? {
        r := NotFound(Some(id));
      } else {
        r := Ok(found.value);
      }
    }

    /** `restore($model)`: BadMethodCall when the entity has no soft deletes;
        otherwise the row loses its trashed mark. The cache is not touched. */
    method Restore(m: Entity) returns (r: Result<bool>)
      requires Valid()
      modifies this`trashed, this`trace
      ensures Valid()
      ensures !softDeletes ==> r == BadMethodCall && trashed == old(trashed) && trace == old(trace)
      ensures softDeletes ==> r == Ok(IdString(m.id) in store)
      ensures softDeletes ==> Snapshot() == WithRestored(old(Snapshot()), m.id)
      ensures softDeletes ==> trace == old(trace) + [StoreRestore(m.id)]
    {
      if !softDeletes {
        return BadMethodCall;
      }
      trashed := WithRestored(Snapshot(), m.id).trashed;
      trace := trace + [StoreRestore(m.id)];
      r := Ok(IdString(m.id) in store);
    }

    /** `findAndRestore($modelId)`: `findFromTrashed`, then `restore` of the
        model found. Without soft deletes it is BadMethodCall whatever the id;
        a failed lookup restores nothing. */
    method FindAndRestore(id: Id) returns (r: Result<bool>)
      requires Valid()
      modifies this`trashed, this`trace
      ensures Valid()
      ensures !softDeletes ==> r == BadMethodCall && trashed == old(trashed) && trace == old(trace)
      ensures softDeletes && FindTrashed(old(Snapshot()), id) == None ==>
        r == NotFound(Some(id)) && trashed == old(trashed) && trace == old(trace) + [StoreFindTrashed(id)]
      ensures softDeletes && FindTrashed(old(Snapshot()), id).Some? ==>
        && r == Ok(true)
        && Snapshot() == WithRestored(old(Snapshot()), id)
        && trace == old(trace) + [StoreFindTrashed(id), StoreRestore(FindTrashed(old(Snapshot()), id).value.id)]
    {
      var found := FindFromTrashed(id);
      if found.Ok? {
        r := Restore(found.value);
      } else if found.NotFound? {
        r := NotFound(found.id);
      } else {
        r := BadMethodCall;
      }
    }
  }
}
